/** Properties of the validator's specification: the fail-fast chain passes
    exactly when every rule holds, errors come in the source's order, only
    the active stacks are inspected, and the boundary cases of the rules. */
module ValidationLemmas {
  import opened BuilderTypes
  import opened ValidationSpec

  // ---------------------------------------------------------------------
  // Each check passes exactly when its rules hold

  lemma {:induction false} MissingActionInNone(actions: seq<string>, names: seq<string>)
    ensures MissingActionIn(actions, names).None? <==> forall a :: a in actions ==> a in names
  {
    if |actions| > 0 {
      MissingActionInNone(actions[1..], names);
      assert forall a :: a in actions <==> a == actions[0] || a in actions[1..];
    }
  }

  lemma {:induction false} MissingActionNone(alarms: seq<AlarmConfigs>, names: seq<string>)
    ensures MissingAction(alarms, names).None? <==>
      forall i, a :: 0 <= i < |alarms| && a in alarms[i].alarmActions ==> a in names
  {
    if |alarms| > 0 {
      MissingActionInNone(alarms[0].alarmActions, names);
      MissingActionNone(alarms[1..], names);
      assert forall i :: 1 <= i < |alarms| ==> alarms[i] == alarms[1..][i - 1];
    }
  }

  lemma PolicyNamesMembership(policies: seq<ScalePolicy>, a: string)
    ensures a in PolicyNames(policies) <==> exists k :: 0 <= k < |policies| && policies[k].name == a
  {
    var names := PolicyNames(policies);
    if exists k :: 0 <= k < |policies| && policies[k].name == a {
      var k :| 0 <= k < |policies| && policies[k].name == a;
      assert names[k] == a;
    }
    if a in names {
      var k :| 0 <= k < |names| && names[k] == a;
      assert policies[k].name == a;
    }
  }

  lemma ScalingAlarmErrorNone(s: Stack)
    ensures ScalingAlarmError(s).None? <==> ScalingAlarmsValid(s)
  {
    var names := PolicyNames(s.autoscaling);
    MissingActionNone(s.alarms, names);
    if MissingAction(s.alarms, names).None? {
      forall i, a | 0 <= i < |s.alarms| && a in s.alarms[i].alarmActions
        ensures exists k :: 0 <= k < |s.autoscaling| && s.autoscaling[k].name == a
      {
        PolicyNamesMembership(s.autoscaling, a);
      }
    } else {
      var i, a :| 0 <= i < |s.alarms| && a in s.alarms[i].alarmActions && a !in names;
      PolicyNamesMembership(s.autoscaling, a);
    }
  }

  lemma {:induction false} BlockDeviceErrorFromNone(devices: seq<BlockDevice>, seen: seq<string>)
    ensures BlockDeviceErrorFrom(devices, seen).None? <==>
      BlockDevicesValid(devices) && forall i :: 0 <= i < |devices| ==> devices[i].deviceName !in seen
  {
    if |devices| > 0 {
      var d := devices[0];
      var rest := devices[1..];
      BlockDeviceErrorFromNone(rest, seen + [d.deviceName]);
      assert forall i :: 1 <= i < |devices| ==> devices[i] == rest[i - 1];
      if BlockDevicesValid(devices) && (forall i :: 0 <= i < |devices| ==> devices[i].deviceName !in seen) {
        assert BlockDeviceValid(d);
        assert forall i :: 0 <= i < |rest| ==> rest[i].deviceName != d.deviceName by {
          forall i | 0 <= i < |rest| ensures rest[i].deviceName != d.deviceName {
            assert devices[0].deviceName != devices[i + 1].deviceName;
          }
        }
      }
    }
  }

  lemma BlockDeviceErrorNone(s: Stack)
    ensures BlockDeviceError(s).None? <==> BlockDevicesValid(s.blockDevices)
  {
    BlockDeviceErrorFromNone(s.blockDevices, []);
  }

  lemma {:induction false} HookErrorNone(hooks: seq<LifecycleHookSpecification>)
    ensures HookError(hooks).None? <==> HooksValid(hooks)
  {
    if |hooks| > 0 {
      HookErrorNone(hooks[1..]);
      assert forall i :: 1 <= i < |hooks| ==> hooks[i] == hooks[1..][i - 1];
    }
  }

  lemma {:induction false} RegionErrorNone(regions: seq<RegionConfig>, targetAmi: string)
    ensures RegionError(regions, targetAmi).None? <==>
      forall i :: 0 <= i < |regions| ==> RegionValid(regions[i], targetAmi)
  {
    if |regions| > 0 {
      RegionErrorNone(regions[1..], targetAmi);
      assert forall i :: 1 <= i < |regions| ==> regions[i] == regions[1..][i - 1];
    }
  }

  /** A stack passes the per-stack checks exactly when it is valid. */
  lemma StackErrorNone(s: Stack, targetAmi: string)
    ensures StackError(s, targetAmi).None? <==> StackValid(s, targetAmi)
  {
    ScalingAlarmErrorNone(s);
    BlockDeviceErrorNone(s);
    HookErrorNone(s.lifecycleHooks.launchTransition);
    HookErrorNone(s.lifecycleHooks.terminateTransition);
    RegionErrorNone(s.regions, targetAmi);
  }

  lemma {:induction false} StacksErrorNone(stacks: seq<Stack>, name: string, targetAmi: string)
    ensures StacksError(stacks, name, targetAmi).None? <==>
      forall i :: 0 <= i < |stacks| && stacks[i].stack == name ==> StackValid(stacks[i], targetAmi)
  {
    if |stacks| > 0 {
      StackErrorNone(stacks[0], targetAmi);
      StacksErrorNone(stacks[1..], name, targetAmi);
      assert forall i :: 1 <= i < |stacks| ==> stacks[i] == stacks[1..][i - 1];
    }
  }

  /** CheckValidation returns nil exactly when every rule holds. */
  lemma ValidateNoneIffRulesHold(b: Builder, metricsFileExists: bool)
    ensures Validate(b, metricsFileExists).None? <==> RulesHold(b, metricsFileExists)
  {
    StacksErrorNone(b.stacks, b.config.stack, b.config.ami);
  }

  /** What a nil result guarantees about the command and metrics
      configuration. */
  lemma ValidResultFacts(b: Builder, metricsFileExists: bool)
    requires Validate(b, metricsFileExists).None?
    ensures b.config.stack != ""
    ensures !(b.config.region == "" && HasPrefix(b.config.ami, "ami-"))
    ensures !(b.config.releaseNotes != "" && b.config.releaseNotesBase64 != "")
    ensures b.metricConfig.region != "" && b.metricConfig.storageName != ""
    ensures MIN_POLLING_INTERVAL <= b.config.pollingInterval < b.config.timeout
  {
    ValidateNoneIffRulesHold(b, metricsFileExists);
  }

  // ---------------------------------------------------------------------
  // Fail-fast order

  /** A per-stack error is reported only when the four leading rules on the
      command configuration hold; a metrics or polling error only when, in
      addition, every active stack is valid. */
  lemma ValidateReportsInOrder(b: Builder, metricsFileExists: bool)
    requires Validate(b, metricsFileExists).Some?
    ensures Validate(b, metricsFileExists).value.IsStackError() ==> LeadingRulesHold(b.config, metricsFileExists)
    ensures !Validate(b, metricsFileExists).value.IsStackError() && !LeadingRulesHold(b.config, metricsFileExists) ==>
      Validate(b, metricsFileExists).value in
        {NoStackChosen, GlobalAmiWithoutRegion(b.config.ami), NoMetricsFile, ReleaseNotesConflict}
    ensures !Validate(b, metricsFileExists).value.IsStackError() && LeadingRulesHold(b.config, metricsFileExists) ==>
      ActiveStacksValid(b) && !TrailingRulesHold(b)
  {
    var c := b.config;
    var e := StacksError(b.stacks, c.stack, c.ami);
    if e.None? {
      StacksErrorNone(b.stacks, c.stack, c.ami);
    }
  }

  /** A per-stack error comes from some stack named after the target. */
  lemma {:induction false} StacksErrorLocated(stacks: seq<Stack>, name: string, targetAmi: string)
    requires StacksError(stacks, name, targetAmi).Some?
    ensures exists i :: (0 <= i < |stacks| && stacks[i].stack == name &&
      StackError(stacks[i], targetAmi) == StacksError(stacks, name, targetAmi))
  {
    if stacks[0].stack != name || StackError(stacks[0], targetAmi).None? {
      StacksErrorLocated(stacks[1..], name, targetAmi);
      var i :| 0 <= i < |stacks[1..]| && stacks[1..][i].stack == name &&
        StackError(stacks[1..][i], targetAmi) == StacksError(stacks[1..], name, targetAmi);
      assert stacks[i + 1] == stacks[1..][i];
    }
  }

  /** Only stacks named after the target are validated: replacing any of
      the other stacks does not change the result. */
  lemma {:induction false} OtherStacksIgnored(stacks: seq<Stack>, stacks': seq<Stack>, name: string, targetAmi: string)
    requires |stacks'| == |stacks|
    requires forall i :: 0 <= i < |stacks| && (stacks[i].stack == name || stacks'[i].stack == name) ==>
      stacks'[i] == stacks[i]
    ensures StacksError(stacks', name, targetAmi) == StacksError(stacks, name, targetAmi)
  {
    if |stacks| > 0 {
      OtherStacksIgnored(stacks[1..], stacks'[1..], name, targetAmi);
    }
  }

  /** When no stack has the target name, no per-stack rule is checked at
      all: the run is validated as if the manifest had no stacks. */
  lemma UnknownStackSkipsStackRules(b: Builder, metricsFileExists: bool)
    requires forall i :: 0 <= i < |b.stacks| ==> b.stacks[i].stack != b.config.stack
    ensures Validate(b, metricsFileExists) == Validate(b.(stacks := []), metricsFileExists)
  {
    StacksErrorNone(b.stacks, b.config.stack, b.config.ami);
  }

  // ---------------------------------------------------------------------
  // What a reported error says about the input

  /** A reported unknown alarm action is an action of some alarm that no
      scaling policy is named after. */
  lemma {:induction false} MissingActionLocated(alarms: seq<AlarmConfigs>, names: seq<string>)
    requires MissingAction(alarms, names).Some?
    ensures exists i :: 0 <= i < |alarms| && MissingAction(alarms, names).value in alarms[i].alarmActions
    ensures MissingAction(alarms, names).value !in names
  {
    var first := MissingActionIn(alarms[0].alarmActions, names);
    if first.Some? {
      MissingActionInLocated(alarms[0].alarmActions, names);
    } else {
      MissingActionLocated(alarms[1..], names);
      var i :| 0 <= i < |alarms[1..]| && MissingAction(alarms[1..], names).value in alarms[1..][i].alarmActions;
      assert alarms[i + 1] == alarms[1..][i];
    }
  }

  lemma {:induction false} MissingActionInLocated(actions: seq<string>, names: seq<string>)
    requires MissingActionIn(actions, names).Some?
    ensures MissingActionIn(actions, names).value in actions
    ensures MissingActionIn(actions, names).value !in names
  {
    if actions[0] in names {
      MissingActionInLocated(actions[1..], names);
    }
  }

  /** A reported duplicate device name is shared by two devices of the
      stack (or by a device and a name accepted before it). */
  lemma {:induction false} DuplicateDeviceNameLocated(devices: seq<BlockDevice>, seen: seq<string>, n: string)
    requires BlockDeviceErrorFrom(devices, seen) == Some(DuplicateDeviceName(n))
    ensures exists i :: (0 <= i < |devices| && devices[i].deviceName == n &&
      (n in seen || exists j :: 0 <= j < i && devices[j].deviceName == n))
  {
    var d := devices[0];
    if d.deviceName !in seen {
      DuplicateDeviceNameLocated(devices[1..], seen + [d.deviceName], n);
      var i :| 0 <= i < |devices[1..]| && devices[1..][i].deviceName == n &&
        (n in seen + [d.deviceName] || exists j :: 0 <= j < i && devices[1..][j].deviceName == n);
      assert devices[i + 1] == devices[1..][i];
      if n !in seen && n != d.deviceName {
        var j :| 0 <= j < i && devices[1..][j].deviceName == n;
        assert devices[j + 1] == devices[1..][j];
      }
    }
  }

  // ---------------------------------------------------------------------
  // Boundary cases

  function DeviceStack(d: BlockDevice): Stack
  {
    ZeroStack().(blockDevices := [d])
  }

  /** An st1 volume of 499 GiB is rejected and one of 500 GiB accepted. */
  lemma St1SizeBoundary(name: string)
    requires name != ""
    ensures BlockDeviceError(DeviceStack(BlockDevice(name, 499, "st1"))) == Some(St1VolumeTooSmall)
    ensures BlockDeviceError(DeviceStack(BlockDevice(name, 400, "st1"))) == Some(St1VolumeTooSmall)
    ensures BlockDeviceError(DeviceStack(BlockDevice(name, 500, "st1"))) == None
  {
    var d := BlockDevice(name, 500, "st1");
    assert "st1" in AVAILABLE_BLOCK_TYPES;
    assert [d][1..] == [];
    assert BlockDeviceErrorFrom([], [] + [name]) == None;
  }

  /** Two devices with the same name are rejected. */
  lemma DuplicateDevicesRejected(name: string)
    requires name != ""
    ensures BlockDeviceError(ZeroStack().(blockDevices := [BlockDevice(name, 8, "gp2"), BlockDevice(name, 8, "gp2")]))
      == Some(DuplicateDeviceName(name))
  {
    var d := BlockDevice(name, 8, "gp2");
    assert "gp2" in AVAILABLE_BLOCK_TYPES;
    assert [d, d][1..] == [d];
    assert name in [] + [name];
    assert BlockDeviceErrorFrom([d], [] + [name]) == Some(DuplicateDeviceName(name));
  }

  function SpotStack(minutes: int64, spotType: string, behavior: string): Stack
  {
    ZeroStack().(instanceMarketOptions := InstanceMarketOptions("spot", SpotOptions(minutes, behavior, "", spotType)))
  }

  /** Block durations of 90 and 420 minutes are rejected; 360 and 0 pass. */
  lemma SpotBlockDurationExamples()
    ensures SpotError(SpotStack(90, "one-time", "terminate")) == Some(InvalidBlockDuration)
    ensures SpotError(SpotStack(420, "one-time", "terminate")) == Some(InvalidBlockDuration)
    ensures SpotError(SpotStack(360, "one-time", "terminate")) == None
    ensures SpotError(SpotStack(0, "one-time", "terminate")) == None
    ensures SpotError(SpotStack(60, "persistent", "terminate")) == Some(PersistentWithTerminate)
    ensures SpotError(SpotStack(60, "persistent", "stop")) == None
  {
  }

  /** With the strategy left empty the "lowest-price" default applies, so
      a pool count is allowed; with another strategy it is not. */
  lemma MixedInstancesStrategyExamples(pools: int64)
    requires pools > 0
    ensures MixedInstancesError(ZeroStack().(mixedInstancesPolicy := MixedInstancesPolicy(true, ["m5.large"], 0, "", pools, "")))
      == None
    ensures MixedInstancesError(ZeroStack().(mixedInstancesPolicy := MixedInstancesPolicy(true, ["m5.large"], 0, "capacity-optimized", pools, "")))
      == Some(PoolsRequireLowestPrice)
    ensures MixedInstancesError(ZeroStack().(mixedInstancesPolicy := MixedInstancesPolicy(true, [], 0, "", 0, "")))
      == Some(NoOverrideInstanceTypes)
  {
  }

  /** Release notes given both as text and as base64 always fail validation. */
  lemma ReleaseNotesConflictRejected(b: Builder, metricsFileExists: bool)
    requires b.config.releaseNotes != "" && b.config.releaseNotesBase64 != ""
    ensures Validate(b, metricsFileExists).Some?
  {
  }

  /** A polling interval of 3s, or one equal to the timeout, fails; one
      second below the timeout passes when every other rule holds. */
  lemma PollingIntervalBounds(b: Builder, metricsFileExists: bool)
    requires LeadingRulesHold(b.config, metricsFileExists) && ActiveStacksValid(b)
    requires b.metricConfig.region != "" && b.metricConfig.storageName != ""
    requires b.config.timeout >= 6 * Second
    ensures Validate(b.(config := b.config.(pollingInterval := 3 * Second)), metricsFileExists)
      == Some(PollingIntervalTooSmall)
    ensures Validate(b.(config := b.config.(pollingInterval := b.config.timeout)), metricsFileExists)
      == Some(PollingIntervalNotBelowTimeout)
    ensures Validate(b.(config := b.config.(pollingInterval := b.config.timeout - Second)), metricsFileExists)
      == None
  {
    var b1 := b.(config := b.config.(pollingInterval := 3 * Second));
    var b2 := b.(config := b.config.(pollingInterval := b.config.timeout));
    var b3 := b.(config := b.config.(pollingInterval := b.config.timeout - Second));
    assert ActiveStacksValid(b1) && ActiveStacksValid(b2) && ActiveStacksValid(b3);
    ValidateNoneIffRulesHold(b1, metricsFileExists);
    ValidateNoneIffRulesHold(b2, metricsFileExists);
    ValidateNoneIffRulesHold(b3, metricsFileExists);
  }
}
