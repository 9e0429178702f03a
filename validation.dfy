/** Builder.CheckValidation: a fixed-order, fail-fast walk over the resolved
    configuration that returns the first violated rule, or None (Go's nil).
    The per-stack loops are split into methods of their own; each is proved
    to return what the corresponding function of ValidationSpec gives. */
module Validation {
  import opened BuilderTypes
  import opened ValidationSpec
  import Tool

  /** Every scaling policy needs a name, collected into `policies`; every
      alarm action must then be one of those names. Checked only when the
      stack has both policies and alarms. */
  method CheckScalingAlarms(stack: Stack) returns (err: Option<ValidationError>)
    ensures err == ScalingAlarmError(stack)
  {
    if |stack.autoscaling| != 0 && |stack.alarms| != 0 {
      var policies: seq<string> := [];
      var i := 0;
      while i < |stack.autoscaling|
        invariant 0 <= i <= |stack.autoscaling|
        invariant |policies| == i
        invariant forall k :: 0 <= k < i ==> policies[k] == stack.autoscaling[k].name != ""
      {
        if |stack.autoscaling[i].name| == 0 {
          return Some(UnnamedScalingPolicy);
        }
        policies := policies + [stack.autoscaling[i].name];
        i := i + 1;
      }
      assert policies == PolicyNames(stack.autoscaling);

      var j := 0;
      while j < |stack.alarms|
        invariant 0 <= j <= |stack.alarms|
        invariant MissingAction(stack.alarms[j..], policies) == MissingAction(stack.alarms, policies)
      {
        var actions := stack.alarms[j].alarmActions;
        var k := 0;
        while k < |actions|
          invariant 0 <= k <= |actions|
          invariant MissingActionIn(actions[k..], policies) == MissingActionIn(actions, policies)
        {
          if !Tool.IsStringInArray(actions[k], policies) {
            assert stack.alarms[j..][0] == stack.alarms[j];
            return Some(UnknownAlarmAction(actions[k]));
          }
          assert actions[k..][1..] == actions[k + 1..];
          k := k + 1;
        }
        assert stack.alarms[j..][1..] == stack.alarms[j + 1..];
        j := j + 1;
      }
    }
    return None;
  }

  /** Each device needs a name, an allowed volume type, at least 500 GiB
      when it is st1, and a name not used by an earlier device (`dNames`). */
  method CheckBlockDevices(stack: Stack) returns (err: Option<ValidationError>)
    ensures err == BlockDeviceError(stack)
  {
    var devices := stack.blockDevices;
    if |devices| > 0 {
      var dNames: seq<string> := [];
      var i := 0;
      while i < |devices|
        invariant 0 <= i <= |devices|
        invariant BlockDeviceErrorFrom(devices[i..], dNames) == BlockDeviceError(stack)
      {
        var block := devices[i];
        if |block.deviceName| == 0 {
          return Some(MissingDeviceName);
        }
        if !Tool.IsStringInArray(block.volumeType, AVAILABLE_BLOCK_TYPES) {
          return Some(UnavailableVolumeType(block.volumeType));
        }
        if block.volumeType == "st1" && block.volumeSize < 500 {
          return Some(St1VolumeTooSmall);
        }
        if Tool.IsStringInArray(block.deviceName, dNames) {
          return Some(DuplicateDeviceName(block.deviceName));
        } else {
          dNames := dNames + [block.deviceName];
        }
        assert devices[i..][1..] == devices[i + 1..];
        i := i + 1;
      }
    }
    return None;
  }

  /** One of the two lifecycle-hook loops: a notification target needs a
      role and a role needs a notification target. A zero heartbeat timeout
      only logs a warning, which is not modelled. */
  method CheckLifecycleHooks(hooks: seq<LifecycleHookSpecification>) returns (err: Option<ValidationError>)
    ensures err == HookError(hooks)
  {
    var i := 0;
    while i < |hooks|
      invariant 0 <= i <= |hooks|
      invariant HookError(hooks[i..]) == HookError(hooks)
    {
      var l := hooks[i];
      if |l.notificationTargetARN| > 0 && |l.roleARN| == 0 {
        return Some(MissingRoleArn(l.lifecycleHookName));
      }
      if |l.roleARN| > 0 && |l.notificationTargetARN| == 0 {
        return Some(MissingNotificationTargetArn(l.lifecycleHookName));
      }
      assert hooks[i..][1..] == hooks[i + 1..];
      i := i + 1;
    }
    return None;
  }

  /** Each region needs an AMI id unless a global one is given, then an
      instance type. */
  method CheckRegions(regions: seq<RegionConfig>, targetAmi: string) returns (err: Option<ValidationError>)
    ensures err == RegionError(regions, targetAmi)
  {
    var i := 0;
    while i < |regions|
      invariant 0 <= i <= |regions|
      invariant RegionError(regions[i..], targetAmi) == RegionError(regions, targetAmi)
    {
      var region := regions[i];
      if |targetAmi| == 0 && |region.amiId| == 0 {
        return Some(MissingAmiId);
      }
      if |region.instanceType| == 0 {
        return Some(MissingInstanceType);
      }
      assert regions[i..][1..] == regions[i + 1..];
      i := i + 1;
    }
    return None;
  }

  /** The body of CheckValidation's loop for one stack named after the
      target: the per-stack rules in order. */
  method CheckStack(stack: Stack, targetAmi: string) returns (err: Option<ValidationError>)
    ensures err == StackError(stack, targetAmi)
  {
    err := CheckScalingAlarms(stack);
    if err.Some? {
      return;
    }

    var options := stack.instanceMarketOptions;
    if |options.marketType| != 0 {
      if options.marketType != "spot" {
        return Some(InvalidMarketType(options.marketType));
      }
      if options.spotOptions.blockDurationMinutes % 60 != 0 || options.spotOptions.blockDurationMinutes > 360 {
        return Some(InvalidBlockDuration);
      }
      if options.spotOptions.spotInstanceType == "persistent" && options.spotOptions.instanceInterruptionBehavior == "terminate" {
        return Some(PersistentWithTerminate);
      }
    }

    err := CheckBlockDevices(stack);
    if err.Some? {
      return;
    }

    if |stack.lifecycleHooks.launchTransition| > 0 {
      err := CheckLifecycleHooks(stack.lifecycleHooks.launchTransition);
      if err.Some? {
        return;
      }
    }
    if |stack.lifecycleHooks.terminateTransition| > 0 {
      err := CheckLifecycleHooks(stack.lifecycleHooks.terminateTransition);
      if err.Some? {
        return;
      }
    }

    err := CheckRegions(stack.regions, targetAmi);
    if err.Some? {
      return;
    }

    // The default strategy is written into the loop's own copy of the stack.
    var policy := stack.mixedInstancesPolicy;
    if policy.enabled {
      if |policy.spotAllocationStrategy| == 0 {
        policy := policy.(spotAllocationStrategy := DEFAULT_SPOT_ALLOCATION_STRATEGY);
      }
      if policy.spotAllocationStrategy != "lowest-price" && policy.spotInstancePools > 0 {
        return Some(PoolsRequireLowestPrice);
      }
      if |policy.override| <= 0 {
        return Some(NoOverrideInstanceTypes);
      }
    }
    return None;
  }

  /** CheckValidation. Whether the metrics configuration file exists is an
      input (the source asks the file system). */
  method CheckValidation(b: Builder, metricsFileExists: bool) returns (err: Option<ValidationError>)
    ensures err == Validate(b, metricsFileExists)
  {
    var targetAmi := b.config.ami;
    var targetRegion := b.config.region;

    if |b.config.stack| == 0 {
      return Some(NoStackChosen);
    }
    if |targetRegion| == 0 && |targetAmi| != 0 && HasPrefix(targetAmi, "ami-") {
      return Some(GlobalAmiWithoutRegion(targetAmi));
    }
    if !b.config.disableMetrics && !metricsFileExists {
      return Some(NoMetricsFile);
    }
    if |b.config.releaseNotes| > 0 && |b.config.releaseNotesBase64| > 0 {
      return Some(ReleaseNotesConflict);
    }

    var i := 0;
    while i < |b.stacks|
      invariant 0 <= i <= |b.stacks|
      invariant StacksError(b.stacks[i..], b.config.stack, targetAmi) == StacksError(b.stacks, b.config.stack, targetAmi)
    {
      var stack := b.stacks[i];
      assert b.stacks[i..][1..] == b.stacks[i + 1..];
      if stack.stack != b.config.stack {
        i := i + 1;
        continue;
      }
      err := CheckStack(stack, targetAmi);
      if err.Some? {
        return;
      }
      i := i + 1;
    }

    if |b.metricConfig.region| <= 0 {
      return Some(MissingMetricsRegion);
    }
    if |b.metricConfig.storageName| <= 0 {
      return Some(MissingMetricsStorageName);
    }
    if b.config.pollingInterval < MIN_POLLING_INTERVAL {
      return Some(PollingIntervalTooSmall);
    }
    if b.config.pollingInterval >= b.config.timeout {
      return Some(PollingIntervalNotBelowTimeout);
    }
    return None;
  }
}
