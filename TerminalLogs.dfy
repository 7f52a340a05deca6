/**
 * The log generators of the terminal view: the scripted output of an
 * install, a factory wipe, an advanced wipe and a mount run. Every
 * `Math.random()` draw of the original is an explicit input here: a `Draw`
 * says whether a step fails and which error message it picks.
 */
module TerminalLogs {
  import opened Text
  import opened Types
  import opened Lists

  /** The outcome of one random draw for a partition step: whether it fails
      and, when it does, the index of the error message picked. */
  datatype Draw = Draw(fails: bool, pick: nat)

  /** The outcomes of the draws of one advanced wipe: one success flag per
      special action, then one `Draw` per partition wiped, in order. */
  datatype WipeDraws = WipeDraws(
    formatOk: bool,
    vendorOk: bool,
    noFormatOk: bool,
    trebleOk: bool,
    partitions: seq<Draw>)

  const Separator := "\n--------------------"

  function InstallLogs(fileName: string): (r: seq<string>)
    ensures |r| == 16
    ensures r[7] == "Installing '" + fileName + "'..."
    ensures r[0] == "Finding update package..." && r[15] == "Done."
  {
    [ "Finding update package...",
      "Opening update package...",
      "Verifying update package...",
      "Installing update...",
      "script succeeded: result was [/system]",
      "Patching system image unconditionally...",
      "Verified '/system' partition...",
      "Installing '" + fileName + "'...",
      "Mounting partitions...",
      "Checking for digest file...",
      "Skipping digest check: no digest file found.",
      "Unzipping...",
      "Running edify script...",
      "Cleaning up...",
      "Unmounting partitions...",
      "Done." ]
  }

  function WipeLogs(): (r: seq<string>)
    ensures |r| == 6
    ensures r[0] == "Wiping data..." && r[5] == "Done."
  {
    [ "Wiping data...",
      "--Wiping data...",
      "Formatting /data...",
      "Formatting /cache...",
      "Data wipe complete.",
      "Done." ]
  }

  /** The tally line shared by the advanced-wipe and mount summaries. */
  function FinishedWith(errors: nat): string
  {
    "Finished with " + NatToString(errors) + " error(s)."
  }

  /** How many `Draw`s among the first `n` fail. */
  function FailuresIn(draws: seq<Draw>, n: nat): (k: nat)
    requires n <= |draws|
    ensures k == |set i | 0 <= i < n && draws[i].fails|
    ensures k <= n
  {
    if n == 0 then
      0
    else
      var s := set i | 0 <= i < n - 1 && draws[i].fails;
      var s' := set i | 0 <= i < n && draws[i].fails;
      assert s' == if draws[n - 1].fails then s + {n - 1} else s;
      FailuresIn(draws, n - 1) + if draws[n - 1].fails then 1 else 0
  }

  // ---------------------------------------------------------------------
  // Mount run
  // ---------------------------------------------------------------------

  /** `/` followed by the first space-separated word of the name, lower-cased. */
  function MountPath(partition: string): string
  {
    "/" + ToLower(Split(partition, ' ')[0])
  }

  function MountErrors(path: string, mount: bool): (msgs: seq<string>)
    ensures |msgs| == if mount then 3 else 2
  {
    if mount then
      ["Failed to mount " + path + " (Invalid argument)",
       "E:Unable to mount storage",
       "mount: " + path + ": No such file or directory"]
    else
      ["Failed to unmount " + path + " (Device or resource busy)",
       "E:Unable to unmount " + path]
  }

  /** Every operation has a draw, and each pick indexes its message list. */
  predicate MountDrawsFit(ops: seq<MountOp>, draws: seq<Draw>)
  {
    && |draws| >= |ops|
    && forall i :: 0 <= i < |ops| ==> draws[i].pick < if ops[i].mount then 3 else 2
  }

  function MountActionLine(op: MountOp): string
  {
    (if op.mount then "Mounting " else "Unmounting ") + MountPath(op.partition) + "..."
  }

  function MountOutcomeLine(op: MountOp, d: Draw): string
    requires d.pick < if op.mount then 3 else 2
  {
    var path := MountPath(op.partition);
    if d.fails then "[ERROR] " + MountErrors(path, op.mount)[d.pick]
    else "Successfully " + (if op.mount then "mounted " else "unmounted ") + path + "."
  }

  /** The two lines of each of the operations, in order. */
  function MountBody(ops: seq<MountOp>, draws: seq<Draw>): seq<string>
    requires MountDrawsFit(ops, draws)
  {
    if ops == [] then []
    else
      var n := |ops| - 1;
      MountBody(ops[..n], draws) + [MountActionLine(ops[n]), MountOutcomeLine(ops[n], draws[n])]
  }

  function MountSummary(errors: nat): seq<string>
  {
    [Separator, if errors > 0 then FinishedWith(errors) else "All mount operations completed successfully."]
  }

  /** The whole log of a mount run. */
  function MountLogs(ops: seq<MountOp>, draws: seq<Draw>): seq<string>
    requires MountDrawsFit(ops, draws)
  {
    if ops == [] then ["No mount changes selected.", "Process aborted."]
    else MountBody(ops, draws) + MountSummary(FailuresIn(draws, |ops|))
  }

  /** `generateMountLogs`: pushes two lines per operation and counts the
      failures as it goes. */
  method GenerateMountLogs(ops: seq<MountOp>, draws: seq<Draw>) returns (logs: seq<string>)
    requires MountDrawsFit(ops, draws)
    ensures logs == MountLogs(ops, draws)
  {
    if |ops| == 0 {
      return ["No mount changes selected.", "Process aborted."];
    }
    logs := [];
    var errors := 0;
    for i := 0 to |ops|
      invariant logs == MountBody(ops[..i], draws)
      invariant errors == FailuresIn(draws, i)
    {
      var op := ops[i];
      var path := MountPath(op.partition);
      ghost var before := logs;
      logs := logs + [(if op.mount then "Mounting " else "Unmounting ") + path + "..."];
      if draws[i].fails {
        errors := errors + 1;
        logs := logs + ["[ERROR] " + MountErrors(path, op.mount)[draws[i].pick]];
      } else {
        logs := logs + ["Successfully " + (if op.mount then "mounted " else "unmounted ") + path + "."];
      }
      AppendPair(before, MountActionLine(op), MountOutcomeLine(op, draws[i]));
      assert ops[..i + 1][..i] == ops[..i];
    }
    assert ops[..|ops|] == ops;
    ghost var body := logs;
    logs := logs + [Separator];
    if errors > 0 {
      logs := logs + [FinishedWith(errors)];
    } else {
      logs := logs + ["All mount operations completed successfully."];
    }
    AppendPair(body, Separator, MountSummary(errors)[1]);
  }

  /** Two lines per operation. */
  lemma {:induction false} MountBodyLength(ops: seq<MountOp>, draws: seq<Draw>)
    requires MountDrawsFit(ops, draws)
    ensures |MountBody(ops, draws)| == 2 * |ops|
  {
    if ops != [] {
      MountBodyLength(ops[..|ops| - 1], draws);
    }
  }

  /** Operation `k` owns lines `2k` (what is done, on which path) and `2k+1`
      (an `[ERROR]` line exactly when its draw fails). */
  lemma {:induction false} MountBodyLines(ops: seq<MountOp>, draws: seq<Draw>, k: nat)
    requires MountDrawsFit(ops, draws)
    requires k < |ops|
    ensures |MountBody(ops, draws)| == 2 * |ops|
    ensures MountBody(ops, draws)[2 * k] == MountActionLine(ops[k])
    ensures MountBody(ops, draws)[2 * k + 1] == MountOutcomeLine(ops[k], draws[k])
  {
    MountBodyLength(ops, draws);
    var n := |ops| - 1;
    var front := ops[..n];
    assert MountDrawsFit(front, draws);
    var pre := MountBody(front, draws);
    MountBodyLength(front, draws);
    assert MountBody(ops, draws) == pre + [MountActionLine(ops[n]), MountOutcomeLine(ops[n], draws[n])];
    if k < n {
      MountBodyLines(front, draws, k);
      assert front[k] == ops[k];
    }
  }

  /** A mount log has two lines per operation plus a separator and a
      summary; the summary reports the number of failed operations, and it
      is the success line exactly when none failed. */
  lemma MountLogsShape(ops: seq<MountOp>, draws: seq<Draw>)
    requires MountDrawsFit(ops, draws)
    requires ops != []
    ensures var logs := MountLogs(ops, draws);
      && |logs| == 2 * |ops| + 2
      && logs[|logs| - 2] == Separator
      && var k := |set i | 0 <= i < |ops| && draws[i].fails|;
         logs[|logs| - 1] == if k > 0 then FinishedWith(k) else "All mount operations completed successfully."
  {
    MountBodyLines(ops, draws, 0);
  }

  /** The outcome line of an operation starts with `[ERROR] ` exactly when
      its draw fails, so the summary's count is the number of error lines. */
  lemma MountOutcomeIsError(op: MountOp, d: Draw)
    requires d.pick < if op.mount then 3 else 2
    ensures var line := MountOutcomeLine(op, d);
      |line| >= 8 && (line[..8] == "[ERROR] " <==> d.fails)
  {
    var line := MountOutcomeLine(op, d);
    if !d.fails {
      assert line[0] == 'S';
    }
  }

  /** An empty request aborts without touching any partition. */
  lemma MountLogsEmpty(draws: seq<Draw>)
    ensures MountLogs([], draws) == ["No mount changes selected.", "Process aborted."]
  {
  }

  // ---------------------------------------------------------------------
  // Advanced wipe
  // ---------------------------------------------------------------------

  const SpecialOptions: seq<string> := ["Clean Kernel Drivers", "Remove Encryption (formats data)"]
  const AlphaOptions: seq<string> :=
    ["Remove Encryption (no format)", "Clean Vendor Partition", "Create Treble Partition"]

  const CleanDrivers := "Clean Kernel Drivers"
  const EncryptionFormat := "Remove Encryption (formats data)"
  const EncryptionNoFormat := "Remove Encryption (no format)"
  const CleanVendor := "Clean Vendor Partition"
  const CreateTreble := "Create Treble Partition"

  // The fixed blocks of lines each step pushes.
  const DriverLines: seq<string> :=
    ["\n-- Starting Kernel Driver Cleanup --",
     "Scanning for residual driver files in /system/lib/modules...",
     "Found 3 potential leftover modules.",
     " - Deleting Helios_kmod.ko...",
     " - Deleting audio_fx_driver.ko...",
     " - Deleting gpu_governor_v2.ko...",
     "Kernel driver cleanup complete."]
  const FormatIntro: seq<string> :=
    ["\n-- Starting Encryption Removal (Format Method) --",
     "NOTE: This process involves formatting the data partition.",
     "Unmounting /data...",
     "Executing 'mkfs.f2fs -l FBE_REMOVED /dev/block/bootdevice/by-name/userdata'..."]
  const FormatDone: seq<string> := ["Successfully formatted data partition.", "Encryption metadata wiped."]
  const SkipDataLine := "Skipping separate wipe of 'Data' as it was just formatted."
  const FormatFailed: seq<string> :=
    ["[ERROR] Failed to execute format command. The partition may be in use.",
     "[ERROR] Encryption removal failed."]
  const VendorIntro: seq<string> := ["\n-- Cleaning Vendor Partition --", "Mounting /vendor as read-write..."]
  const VendorDone: seq<string> :=
    ["Vendor partition mounted.",
     "Deleting blob files from /vendor/lib...",
     "Deleting overlays from /vendor/overlay...",
     "Vendor cleanup complete.",
     "Unmounting /vendor..."]
  const VendorFailed: seq<string> :=
    ["[ERROR] Could not mount /vendor. Partition may be corrupt.",
     "[ERROR] Vendor cleaning failed."]
  const NoFormatIntro: seq<string> :=
    ["\n-- Starting Encryption Removal (No-Format Method) --",
     "WARNING: This is an experimental feature and may not work on all devices.",
     "Reading fstab from boot partition...",
     "Found 'fileencryption=ice' flag.",
     "Patching fstab to remove encryption flag in memory..."]
  const NoFormatDone: seq<string> :=
    ["Successfully patched fstab.",
     "Flashing modified boot image to disable force_encrypt...",
     "Encryption disabled on next boot."]
  const NoFormatFailed: seq<string> :=
    ["[ERROR] Failed to patch boot image. Fstab is read-only or invalid.",
     "[ERROR] No-format encryption removal failed."]
  const TrebleIntro: seq<string> :=
    ["\n-- Creating Treble Partition Layout --",
     "Verifying Project Treble compatibility...",
     "Device is compatible.",
     "Backing up partition table to /tmp/partition.bak...",
     "Repartitioning eMMC..."]
  const TrebleDone: seq<string> :=
    ["Shrinking /system partition...",
     "Creating new /vendor partition (1.5 GB)...",
     "Formatting /vendor as ext4...",
     "Partition table updated successfully.",
     "A reboot is required to apply changes."]
  const TrebleFailed: seq<string> :=
    ["[ERROR] Repartitioning failed. Not enough contiguous space on block device.",
     "[ERROR] Treble-izing process failed. Restoring partition table from backup."]
  const WipeHeading := "\n-- Wiping selected partitions --"
  const WipeFailedLine := "Advanced wipe process failed."
  const WipeSucceededLines: seq<string> :=
    ["All selected operations completed successfully.", "Advanced wipe complete."]

  /** The options that are partitions rather than special or alpha actions,
      in selection order. */
  function PartitionOptions(options: seq<string>): (r: seq<string>)
    ensures |r| <= |options|
    ensures forall x :: x in r <==> x in options && x !in SpecialOptions && x !in AlphaOptions
  {
    if options == [] then []
    else
      var o := options[|options| - 1];
      PartitionOptions(options[..|options| - 1])
        + if o in SpecialOptions || o in AlphaOptions then [] else [o]
  }

  /** The partitions actually wiped: the partition options, minus `Data`
      when the format-method encryption removal has just formatted it. */
  function WipedPartitions(options: seq<string>, formatOk: bool): (r: seq<string>)
    ensures |r| <= |options|
    ensures forall x :: x in r <==>
      && x in options && x !in SpecialOptions && x !in AlphaOptions
      && !(x == "Data" && formatOk && EncryptionFormat in options)
  {
    var parts := PartitionOptions(options);
    if EncryptionFormat in options && formatOk && "Data" in parts
    then Without(parts, "Data")
    else parts
  }

  /** An option the partition filter keeps: neither a special nor an alpha
      action. */
  predicate IsPartitionOption(x: string)
  {
    x !in SpecialOptions && x !in AlphaOptions
  }

  /** The partition filter keeps the selection order, and keeps every
      partition option as often as it was selected. */
  lemma {:induction false} PartitionOptionsOrder(options: seq<string>)
    ensures SubsequenceOf(PartitionOptions(options), options)
    ensures forall x :: multiset(PartitionOptions(options))[x]
                        == (if IsPartitionOption(x) then multiset(options)[x] else 0)
  {
    if options != [] {
      var init := options[..|options| - 1];
      var o := options[|options| - 1];
      assert options == init + [o];
      PartitionOptionsOrder(init);
      var rest := PartitionOptions(init);
      if IsPartitionOption(o) {
        assert PartitionOptions(options) == rest + [o];
        SubsequenceSnoc(rest, init, o);
      } else {
        assert PartitionOptions(options) == rest;
        SubsequenceExtend(rest, init, o);
      }
      assert multiset(options) == multiset(init) + multiset{o};
    }
  }

  /** The wiped partitions are the partition options in selection order,
      each as often as selected, except that `Data` is dropped entirely
      after a successful format-method encryption removal. */
  lemma WipedPartitionsOrder(options: seq<string>, formatOk: bool)
    ensures SubsequenceOf(WipedPartitions(options, formatOk), options)
    ensures forall x :: multiset(WipedPartitions(options, formatOk))[x]
                        == (if IsPartitionOption(x) && !(x == "Data" && formatOk && EncryptionFormat in options)
                            then multiset(options)[x] else 0)
  {
    var parts := PartitionOptions(options);
    PartitionOptionsOrder(options);
    if EncryptionFormat in options && formatOk && "Data" in parts {
      WithoutCounts(parts, "Data");
      SubsequenceTrans(Without(parts, "Data"), parts, options);
    }
  }

  predicate WipeDrawsFit(options: seq<string>, draws: WipeDraws)
  {
    var parts := WipedPartitions(options, draws.formatOk);
    && |draws.partitions| >= |parts|
    && forall i :: 0 <= i < |parts| ==> draws.partitions[i].pick < 3
  }

  /** The partition name a wipe step prints: the first word, lower-cased,
      with its first `/` removed. */
  function WipeName(p: string): string
  {
    RemoveFirst(ToLower(Split(p, ' ')[0]), '/')
  }

  function WipeErrors(name: string): (msgs: seq<string>)
    ensures |msgs| == 3
  {
    ["Failed to mount '/" + name + "' (Device or resource busy)",
     "E:Unable to wipe /" + name,
     "mkfs.f2fs failed with error code 1"]
  }

  function WipeOutcomeLine(name: string, d: Draw): string
    requires d.pick < 3
  {
    if d.fails then "[ERROR] " + WipeErrors(name)[d.pick] else "Successfully formatted /" + name + "."
  }

  /** The four lines of the wipe of partition `p`. */
  function WipeStep(p: string, d: Draw): (r: seq<string>)
    requires d.pick < 3
    ensures |r| == 4
  {
    var name := WipeName(p);
    ["\nStarting wipe of " + p + "...",
     "Running format command for /" + name + "...",
     "...",
     WipeOutcomeLine(name, d)]
  }

  function WipeBody(parts: seq<string>, draws: seq<Draw>): seq<string>
    requires |draws| >= |parts|
    requires forall i :: 0 <= i < |parts| ==> draws[i].pick < 3
  {
    if parts == [] then []
    else
      var n := |parts| - 1;
      WipeBody(parts[..n], draws) + WipeStep(parts[n], draws[n])
  }

  function DriverSection(options: seq<string>): seq<string>
  {
    if CleanDrivers in options then DriverLines else []
  }

  function FormatSection(options: seq<string>, ok: bool): seq<string>
  {
    if EncryptionFormat !in options then []
    else if !ok then FormatIntro + FormatFailed
    else if "Data" in PartitionOptions(options) then FormatIntro + FormatDone + [SkipDataLine]
    else FormatIntro + FormatDone
  }

  /** A step that prints an introduction and then a success or failure block. */
  function StepSection(selected: bool, ok: bool, intro: seq<string>, done: seq<string>, failed: seq<string>): seq<string>
  {
    if !selected then [] else if ok then intro + done else intro + failed
  }

  /** Everything before the partition wipes. */
  function ActionSections(options: seq<string>, draws: WipeDraws): seq<string>
  {
    ["Processing selected options: " + Join(options, ", ") + "..."]
    + DriverSection(options)
    + FormatSection(options, draws.formatOk)
    + StepSection(CleanVendor in options, draws.vendorOk, VendorIntro, VendorDone, VendorFailed)
    + StepSection(EncryptionNoFormat in options, draws.noFormatOk, NoFormatIntro, NoFormatDone, NoFormatFailed)
    + StepSection(CreateTreble in options, draws.trebleOk, TrebleIntro, TrebleDone, TrebleFailed)
  }

  /** One error when a selected action fails. */
  function StepFailures(selected: bool, ok: bool): nat
  {
    if selected && !ok then 1 else 0
  }

  /** How many of the selected special and alpha actions failed. */
  function ActionFailures(options: seq<string>, draws: WipeDraws): (k: nat)
    ensures k <= 4
  {
    StepFailures(EncryptionFormat in options, draws.formatOk)
    + StepFailures(CleanVendor in options, draws.vendorOk)
    + StepFailures(EncryptionNoFormat in options, draws.noFormatOk)
    + StepFailures(CreateTreble in options, draws.trebleOk)
  }

  /** Total error count: failed actions plus failed partition wipes. */
  function WipeErrorCount(options: seq<string>, draws: WipeDraws): nat
    requires WipeDrawsFit(options, draws)
  {
    ActionFailures(options, draws)
      + FailuresIn(draws.partitions, |WipedPartitions(options, draws.formatOk)|)
  }

  function WipeSummary(errors: nat): (r: seq<string>)
    ensures |r| == 3 && r[0] == Separator
    ensures r[2] == WipeFailedLine <==> errors > 0
    ensures errors > 0 ==> r[1] == FinishedWith(errors)
  {
    [Separator] + if errors > 0 then [FinishedWith(errors), WipeFailedLine] else WipeSucceededLines
  }

  /** Everything after the actions: the heading when partitions remain,
      their wipes, and the summary of the `errors` counted so far plus the
      failed wipes. */
  function WipeTail(parts: seq<string>, draws: seq<Draw>, errors: nat): seq<string>
    requires |draws| >= |parts|
    requires forall i :: 0 <= i < |parts| ==> draws[i].pick < 3
  {
    (if parts != [] then [WipeHeading] else [])
    + WipeBody(parts, draws)
    + WipeSummary(errors + FailuresIn(draws, |parts|))
  }

  /** The whole log of an advanced wipe. */
  function AdvancedWipeLogs(options: seq<string>, draws: WipeDraws): seq<string>
    requires WipeDrawsFit(options, draws)
  {
    if options == [] then ["No options selected for wipe.", "Process aborted."]
    else
      ActionSections(options, draws)
      + WipeTail(WipedPartitions(options, draws.formatOk), draws.partitions, ActionFailures(options, draws))
  }

  /** The format-method encryption removal: on success it also drops `Data`
      from the partitions still to wipe, announcing the skip. */
  method PushFormatStep(logs: seq<string>, errors: nat, options: seq<string>, partitions: seq<string>, ok: bool)
    returns (logs': seq<string>, errors': nat, partitions': seq<string>)
    requires partitions == PartitionOptions(options)
    ensures logs' == logs + FormatSection(options, ok)
    ensures errors' == errors + StepFailures(EncryptionFormat in options, ok)
    ensures partitions' == WipedPartitions(options, ok)
  {
    logs', errors', partitions' := logs, errors, partitions;
    if EncryptionFormat in options {
      logs' := logs' + FormatIntro;
      if ok {
        logs' := logs' + FormatDone;
        if "Data" in partitions' {
          logs' := logs' + [SkipDataLine];
          partitions' := Without(partitions', "Data");
        }
      } else {
        errors' := errors' + 1;
        logs' := logs' + FormatFailed;
      }
    } else {
      assert logs' == logs + [];
    }
  }

  /** An action that prints its introduction and then either its success
      block or its failure block, counting the failure. */
  method PushStep(logs: seq<string>, errors: nat, selected: bool, ok: bool,
                  intro: seq<string>, done: seq<string>, failed: seq<string>)
    returns (logs': seq<string>, errors': nat)
    ensures logs' == logs + StepSection(selected, ok, intro, done, failed)
    ensures errors' == errors + StepFailures(selected, ok)
  {
    logs', errors' := logs, errors;
    if selected {
      logs' := logs' + intro;
      if ok {
        logs' := logs' + done;
      } else {
        errors' := errors' + 1;
        logs' := logs' + failed;
      }
    }
  }

  /** One iteration of the partition loop: announces the wipe of `p`, then
      reports its success or one of its three errors. */
  method PushWipeStep(logs: seq<string>, errors: nat, p: string, d: Draw)
    returns (logs': seq<string>, errors': nat)
    requires d.pick < 3
    ensures logs' == logs + WipeStep(p, d)
    ensures errors' == errors + if d.fails then 1 else 0
  {
    var partitionName := RemoveFirst(ToLower(Split(p, ' ')[0]), '/');
    var line0 := "\nStarting wipe of " + p + "...";
    var line1 := "Running format command for /" + partitionName + "...";
    var line3;
    errors' := errors;
    if d.fails {
      errors' := errors' + 1;
      line3 := "[ERROR] " + WipeErrors(partitionName)[d.pick];
    } else {
      line3 := "Successfully formatted /" + partitionName + ".";
    }
    logs' := logs + [line0];
    logs' := logs' + [line1];
    logs' := logs' + ["..."];
    logs' := logs' + [line3];
    assert logs' == logs + [line0, line1, "...", line3];
  }

  /** The partition loop: wipes `partitions` in order, counting failures. */
  method PushWipes(logs: seq<string>, errors: nat, partitions: seq<string>, draws: seq<Draw>)
    returns (logs': seq<string>, errors': nat)
    requires |draws| >= |partitions|
    requires forall i :: 0 <= i < |partitions| ==> draws[i].pick < 3
    ensures logs' == logs + WipeBody(partitions, draws)
    ensures errors' == errors + FailuresIn(draws, |partitions|)
  {
    logs', errors' := logs, errors;
    for i := 0 to |partitions|
      invariant logs' == logs + WipeBody(partitions[..i], draws)
      invariant errors' == errors + FailuresIn(draws, i)
    {
      ghost var before := logs';
      logs', errors' := PushWipeStep(logs', errors', partitions[i], draws[i]);
      assert partitions[..i + 1][..i] == partitions[..i];
      assert WipeBody(partitions[..i + 1], draws)
        == WipeBody(partitions[..i], draws) + WipeStep(partitions[i], draws[i]);
    }
    assert partitions[..|partitions|] == partitions;
  }

  /** The closing lines: a separator, then the error tally and the failure
      line, or the two success lines. */
  method PushSummary(logs: seq<string>, errors: nat) returns (logs': seq<string>)
    ensures logs' == logs + WipeSummary(errors)
  {
    logs' := logs + [Separator];
    if errors > 0 {
      logs' := logs' + [FinishedWith(errors)];
      logs' := logs' + [WipeFailedLine];
      assert logs' == logs + [Separator, FinishedWith(errors), WipeFailedLine];
    } else {
      logs' := logs' + WipeSucceededLines;
    }
  }

  /** The driver cleanup and the format-method encryption removal, which
      may take `Data` off the partitions to wipe. */
  method PushSpecialActions(logs: seq<string>, options: seq<string>, formatOk: bool)
    returns (logs': seq<string>, errors: nat, partitions: seq<string>)
    ensures logs' == logs + DriverSection(options) + FormatSection(options, formatOk)
    ensures errors == StepFailures(EncryptionFormat in options, formatOk)
    ensures partitions == WipedPartitions(options, formatOk)
  {
    logs' := logs;
    partitions := PartitionOptions(options);
    if CleanDrivers in options {
      logs' := logs' + DriverLines;
    } else {
      assert logs' == logs' + [];
    }
    logs', errors, partitions := PushFormatStep(logs', 0, options, partitions, formatOk);
  }

  /** The vendor cleanup, the no-format encryption removal and the Treble
      layout, each counting its failure. */
  method PushAlphaActions(logs: seq<string>, errors: nat, options: seq<string>, draws: WipeDraws)
    returns (logs': seq<string>, errors': nat)
    ensures logs' == logs
      + StepSection(CleanVendor in options, draws.vendorOk, VendorIntro, VendorDone, VendorFailed)
      + StepSection(EncryptionNoFormat in options, draws.noFormatOk, NoFormatIntro, NoFormatDone, NoFormatFailed)
      + StepSection(CreateTreble in options, draws.trebleOk, TrebleIntro, TrebleDone, TrebleFailed)
    ensures errors' == errors
      + StepFailures(CleanVendor in options, draws.vendorOk)
      + StepFailures(EncryptionNoFormat in options, draws.noFormatOk)
      + StepFailures(CreateTreble in options, draws.trebleOk)
  {
    var hasRemoveEncryptionNoFormat := EncryptionNoFormat in options;
    var hasCleanVendor := CleanVendor in options;
    var hasCreateTreble := CreateTreble in options;
    logs', errors' := PushStep(logs, errors, hasCleanVendor, draws.vendorOk, VendorIntro, VendorDone, VendorFailed);
    logs', errors' := PushStep(logs', errors', hasRemoveEncryptionNoFormat, draws.noFormatOk,
                               NoFormatIntro, NoFormatDone, NoFormatFailed);
    logs', errors' := PushStep(logs', errors', hasCreateTreble, draws.trebleOk, TrebleIntro, TrebleDone, TrebleFailed);
  }

  /** The first half of `generateDynamicAdvancedWipeLogs`: the heading and
      the selected special and alpha actions, in their fixed order. */
  method PushActions(options: seq<string>, draws: WipeDraws)
    returns (logs: seq<string>, errors: nat, partitions: seq<string>)
    ensures logs == ActionSections(options, draws)
    ensures errors == ActionFailures(options, draws)
    ensures partitions == WipedPartitions(options, draws.formatOk)
  {
    logs := ["Processing selected options: " + Join(options, ", ") + "..."];
    logs, errors, partitions := PushSpecialActions(logs, options, draws.formatOk);
    logs, errors := PushAlphaActions(logs, errors, options, draws);
  }

  /** The second half: the heading when partitions remain, the partition
      loop and the summary. */
  method PushTail(logs: seq<string>, errors: nat, partitions: seq<string>, draws: seq<Draw>)
    returns (logs': seq<string>)
    requires |draws| >= |partitions|
    requires forall i :: 0 <= i < |partitions| ==> draws[i].pick < 3
    ensures logs' == logs + WipeTail(partitions, draws, errors)
  {
    logs' := logs;
    if |partitions| > 0 {
      logs' := logs' + [WipeHeading];
    } else {
      assert logs' == logs' + [];
    }
    var errors';
    logs', errors' := PushWipes(logs', errors, partitions, draws);
    logs' := PushSummary(logs', errors');
    var heading := if partitions != [] then [WipeHeading] else [];
    var body := WipeBody(partitions, draws);
    var summary := WipeSummary(errors + FailuresIn(draws, |partitions|));
    AppendAssoc(logs, heading + body, summary);
    AppendAssoc(logs, heading, body);
  }

  /** `generateDynamicAdvancedWipeLogs`: pushes the lines of the selected
      actions, then wipes the remaining partitions one by one, counting every
      failed step once. */
  method GenerateAdvancedWipeLogs(options: seq<string>, draws: WipeDraws) returns (logs: seq<string>)
    requires WipeDrawsFit(options, draws)
    ensures logs == AdvancedWipeLogs(options, draws)
  {
    if |options| == 0 {
      return ["No options selected for wipe.", "Process aborted."];
    }
    var errors, partitions;
    logs, errors, partitions := PushActions(options, draws);
    logs := PushTail(logs, errors, partitions, draws.partitions);
  }

  /** Four lines per partition. */
  lemma {:induction false} WipeBodyLength(parts: seq<string>, draws: seq<Draw>)
    requires |draws| >= |parts|
    requires forall i :: 0 <= i < |parts| ==> draws[i].pick < 3
    ensures |WipeBody(parts, draws)| == 4 * |parts|
  {
    if parts != [] {
      WipeBodyLength(parts[..|parts| - 1], draws);
    }
  }

  /** Partition `k` owns lines `4k` to `4k+3` of the wipe section, which
      are exactly its wipe step. */
  lemma {:induction false} WipeBodyLines(parts: seq<string>, draws: seq<Draw>, k: nat)
    requires |draws| >= |parts|
    requires forall i :: 0 <= i < |parts| ==> draws[i].pick < 3
    requires k < |parts|
    ensures |WipeBody(parts, draws)| == 4 * |parts|
    ensures var body := WipeBody(parts, draws); var step := WipeStep(parts[k], draws[k]);
      body[4 * k] == step[0] && body[4 * k + 1] == step[1] && body[4 * k + 2] == step[2] && body[4 * k + 3] == step[3]
  {
    WipeBodyLength(parts, draws);
    var n := |parts| - 1;
    var front := parts[..n];
    var pre := WipeBody(front, draws);
    var last := WipeStep(parts[n], draws[n]);
    WipeBodyLength(front, draws);
    assert WipeBody(parts, draws) == pre + last;
    if k < n {
      WipeBodyLines(front, draws, k);
      assert front[k] == parts[k];
    }
    AppendIndex(pre, last, 4 * k);
    AppendIndex(pre, last, 4 * k + 1);
    AppendIndex(pre, last, 4 * k + 2);
    AppendIndex(pre, last, 4 * k + 3);
  }

  /** A wipe step starts with the partition it wipes and ends with an
      `[ERROR]` line exactly when its draw fails. */
  lemma WipeStepLines(p: string, d: Draw)
    requires d.pick < 3
    ensures WipeStep(p, d)[0] == "\nStarting wipe of " + p + "..."
    ensures WipeStep(p, d)[1] == "Running format command for /" + WipeName(p) + "..."
    ensures var line := WipeStep(p, d)[3];
      |line| >= 8 && (line[..8] == "[ERROR] " <==> d.fails)
  {
    var line := WipeOutcomeLine(WipeName(p), d);
    if !d.fails {
      assert line[0] == 'S';
    }
  }

  /** The tail of an advanced-wipe log ends with its summary. */
  lemma WipeTailEnds(parts: seq<string>, draws: seq<Draw>, errors: nat)
    requires |draws| >= |parts|
    requires forall i :: 0 <= i < |parts| ==> draws[i].pick < 3
    ensures var tail := WipeTail(parts, draws, errors);
      var summary := WipeSummary(errors + FailuresIn(draws, |parts|));
      && |tail| >= 3
      && tail[|tail| - 3] == summary[0] && tail[|tail| - 2] == summary[1] && tail[|tail| - 1] == summary[2]
  {
    var front := (if parts != [] then [WipeHeading] else []) + WipeBody(parts, draws);
    var summary := WipeSummary(errors + FailuresIn(draws, |parts|));
    assert WipeTail(parts, draws, errors) == front + summary;
  }

  /** A non-empty advanced wipe ends with a separator and a two-line
      summary: `Advanced wipe process failed.`, preceded by the error tally,
      exactly when some action or partition wipe failed. */
  lemma AdvancedWipeOutcome(options: seq<string>, draws: WipeDraws)
    requires WipeDrawsFit(options, draws)
    requires options != []
    ensures var logs := AdvancedWipeLogs(options, draws);
      var errors := WipeErrorCount(options, draws);
      && |logs| >= 4
      && logs[0] == "Processing selected options: " + Join(options, ", ") + "..."
      && logs[|logs| - 3] == Separator
      && (logs[|logs| - 1] == WipeFailedLine <==> errors > 0)
      && (errors > 0 ==> logs[|logs| - 2] == FinishedWith(errors))
  {
    var parts := WipedPartitions(options, draws.formatOk);
    var sections := ActionSections(options, draws);
    var tail := WipeTail(parts, draws.partitions, ActionFailures(options, draws));
    WipeTailEnds(parts, draws.partitions, ActionFailures(options, draws));
    assert sections[0] == "Processing selected options: " + Join(options, ", ") + "...";
    var logs := sections + tail;
    assert logs[|logs| - 1] == tail[|tail| - 1];
    assert logs[|logs| - 2] == tail[|tail| - 2];
    assert logs[|logs| - 3] == tail[|tail| - 3];
  }

  /** An empty selection aborts before any step. */
  lemma AdvancedWipeEmpty(draws: WipeDraws)
    ensures AdvancedWipeLogs([], draws) == ["No options selected for wipe.", "Process aborted."]
  {
  }
}
