/** What Builder.CheckValidation decides, as functions. `Validate` is the
    fail-fast chain: it gives the first violated rule in the source's fixed
    order, or None. `RulesHold` states the same rules declaratively, all at
    once; `ValidateNoneIffRulesHold` proves the two agree. */
module ValidationSpec {
  import opened BuilderTypes

  /** One constructor per error CheckValidation can return, in source order. */
  datatype ValidationError =
    | NoStackChosen
    | GlobalAmiWithoutRegion(ami: string)
    | NoMetricsFile
    | ReleaseNotesConflict
    | UnnamedScalingPolicy
    | UnknownAlarmAction(action: string)
    | InvalidMarketType(marketType: string)
    | InvalidBlockDuration
    | PersistentWithTerminate
    | MissingDeviceName
    | UnavailableVolumeType(volumeType: string)
    | St1VolumeTooSmall
    | DuplicateDeviceName(deviceName: string)
    | MissingRoleArn(hookName: string)
    | MissingNotificationTargetArn(hookName: string)
    | MissingAmiId
    | MissingInstanceType
    | PoolsRequireLowestPrice
    | NoOverrideInstanceTypes
    | MissingMetricsRegion
    | MissingMetricsStorageName
    | PollingIntervalTooSmall
    | PollingIntervalNotBelowTimeout
  {
    /** The errors raised by the rules checked on each active stack. */
    predicate IsStackError()
    {
      !(NoStackChosen? || GlobalAmiWithoutRegion? || NoMetricsFile? || ReleaseNotesConflict? ||
        MissingMetricsRegion? || MissingMetricsStorageName? ||
        PollingIntervalTooSmall? || PollingIntervalNotBelowTimeout?)
    }
  }

  /** The first of two checks that fails, `first` taking precedence. */
  function OrElse(first: Option<ValidationError>, next: Option<ValidationError>): Option<ValidationError>
  {
    if first.Some? then first else next
  }

  // ---------------------------------------------------------------------
  // The fail-fast chain

  function PolicyNames(policies: seq<ScalePolicy>): seq<string>
  {
    seq(|policies|, k requires 0 <= k < |policies| => policies[k].name)
  }

  /** The first action of `actions` that names no scaling policy. */
  function MissingActionIn(actions: seq<string>, names: seq<string>): Option<string>
  {
    if |actions| == 0 then None
    else if actions[0] !in names then Some(actions[0])
    else MissingActionIn(actions[1..], names)
  }

  /** The first alarm action, over all alarms in order, that names no policy. */
  function MissingAction(alarms: seq<AlarmConfigs>, names: seq<string>): Option<string>
  {
    if |alarms| == 0 then None
    else if MissingActionIn(alarms[0].alarmActions, names).Some? then MissingActionIn(alarms[0].alarmActions, names)
    else MissingAction(alarms[1..], names)
  }

  function ScalingAlarmError(s: Stack): Option<ValidationError>
  {
    if |s.autoscaling| == 0 || |s.alarms| == 0 then None
    else if exists k :: 0 <= k < |s.autoscaling| && s.autoscaling[k].name == "" then Some(UnnamedScalingPolicy)
    else
      var missing := MissingAction(s.alarms, PolicyNames(s.autoscaling));
      if missing.Some? then Some(UnknownAlarmAction(missing.value)) else None
  }

  function SpotError(s: Stack): Option<ValidationError>
  {
    var options := s.instanceMarketOptions;
    var spot := options.spotOptions;
    if options.marketType == "" then None
    else if options.marketType != "spot" then Some(InvalidMarketType(options.marketType))
    else if spot.blockDurationMinutes % 60 != 0 || spot.blockDurationMinutes > 360 then Some(InvalidBlockDuration)
    else if spot.spotInstanceType == "persistent" && spot.instanceInterruptionBehavior == "terminate" then Some(PersistentWithTerminate)
    else None
  }

  /** The first bad device of `devices`, given the names `seen` of the
      devices already accepted before them. */
  function BlockDeviceErrorFrom(devices: seq<BlockDevice>, seen: seq<string>): (e: Option<ValidationError>)
    ensures e.Some? ==>
      (e.value in {MissingDeviceName, St1VolumeTooSmall} || e.value.UnavailableVolumeType? || e.value.DuplicateDeviceName?)
  {
    if |devices| == 0 then None
    else
      var d := devices[0];
      if d.deviceName == "" then Some(MissingDeviceName)
      else if d.volumeType !in AVAILABLE_BLOCK_TYPES then Some(UnavailableVolumeType(d.volumeType))
      else if d.volumeType == "st1" && d.volumeSize < 500 then Some(St1VolumeTooSmall)
      else if d.deviceName in seen then Some(DuplicateDeviceName(d.deviceName))
      else BlockDeviceErrorFrom(devices[1..], seen + [d.deviceName])
  }

  function BlockDeviceError(s: Stack): Option<ValidationError>
  {
    BlockDeviceErrorFrom(s.blockDevices, [])
  }

  function HookError(hooks: seq<LifecycleHookSpecification>): (e: Option<ValidationError>)
    ensures e.Some? ==> e.value.MissingRoleArn? || e.value.MissingNotificationTargetArn?
  {
    if |hooks| == 0 then None
    else
      var h := hooks[0];
      if h.notificationTargetARN != "" && h.roleARN == "" then Some(MissingRoleArn(h.lifecycleHookName))
      else if h.roleARN != "" && h.notificationTargetARN == "" then Some(MissingNotificationTargetArn(h.lifecycleHookName))
      else HookError(hooks[1..])
  }

  function LifecycleError(s: Stack): Option<ValidationError>
  {
    OrElse(HookError(s.lifecycleHooks.launchTransition), HookError(s.lifecycleHooks.terminateTransition))
  }

  /** Per region in order: the AMI check, then the instance-type check. */
  function RegionError(regions: seq<RegionConfig>, targetAmi: string): (e: Option<ValidationError>)
    ensures e.Some? ==> e.value in {MissingAmiId, MissingInstanceType}
  {
    if |regions| == 0 then None
    else if targetAmi == "" && regions[0].amiId == "" then Some(MissingAmiId)
    else if regions[0].instanceType == "" then Some(MissingInstanceType)
    else RegionError(regions[1..], targetAmi)
  }

  /** The allocation strategy after the empty-string default is applied. */
  function EffectiveStrategy(m: MixedInstancesPolicy): string
  {
    if m.spotAllocationStrategy == "" then DEFAULT_SPOT_ALLOCATION_STRATEGY else m.spotAllocationStrategy
  }

  function MixedInstancesError(s: Stack): Option<ValidationError>
  {
    var m := s.mixedInstancesPolicy;
    if !m.enabled then None
    else if EffectiveStrategy(m) != "lowest-price" && m.spotInstancePools > 0 then Some(PoolsRequireLowestPrice)
    else if |m.override| <= 0 then Some(NoOverrideInstanceTypes)
    else None
  }

  /** The per-stack rules in the source's order. */
  function StackError(s: Stack, targetAmi: string): Option<ValidationError>
  {
    OrElse(ScalingAlarmError(s),
    OrElse(SpotError(s),
    OrElse(BlockDeviceError(s),
    OrElse(LifecycleError(s),
    OrElse(RegionError(s.regions, targetAmi),
           MixedInstancesError(s))))))
  }

  /** The first error over the stacks named `name`, in manifest order;
      other stacks are skipped. */
  function StacksError(stacks: seq<Stack>, name: string, targetAmi: string): (e: Option<ValidationError>)
    ensures e.Some? ==> e.value.IsStackError()
  {
    if |stacks| == 0 then None
    else if stacks[0].stack != name then StacksError(stacks[1..], name, targetAmi)
    else OrElse(StackError(stacks[0], targetAmi), StacksError(stacks[1..], name, targetAmi))
  }

  /** CheckValidation's answer: the first violated rule, or None. Whether
      the metrics configuration file exists is an input. */
  function Validate(b: Builder, metricsFileExists: bool): Option<ValidationError>
  {
    var c := b.config;
    if c.stack == "" then Some(NoStackChosen)
    else if c.region == "" && c.ami != "" && HasPrefix(c.ami, "ami-") then Some(GlobalAmiWithoutRegion(c.ami))
    else if !c.disableMetrics && !metricsFileExists then Some(NoMetricsFile)
    else if c.releaseNotes != "" && c.releaseNotesBase64 != "" then Some(ReleaseNotesConflict)
    else if StacksError(b.stacks, c.stack, c.ami).Some? then StacksError(b.stacks, c.stack, c.ami)
    else if b.metricConfig.region == "" then Some(MissingMetricsRegion)
    else if b.metricConfig.storageName == "" then Some(MissingMetricsStorageName)
    else if c.pollingInterval < MIN_POLLING_INTERVAL then Some(PollingIntervalTooSmall)
    else if c.pollingInterval >= c.timeout then Some(PollingIntervalNotBelowTimeout)
    else None
  }

  // ---------------------------------------------------------------------
  // The same rules, stated all at once

  predicate ScalingAlarmsValid(s: Stack)
  {
    |s.autoscaling| == 0 || |s.alarms| == 0 ||
    ((forall k :: 0 <= k < |s.autoscaling| ==> s.autoscaling[k].name != "") &&
     (forall a, action :: 0 <= a < |s.alarms| && action in s.alarms[a].alarmActions ==>
        exists k :: 0 <= k < |s.autoscaling| && s.autoscaling[k].name == action))
  }

  predicate SpotValid(s: Stack)
  {
    var options := s.instanceMarketOptions;
    var spot := options.spotOptions;
    options.marketType == "" ||
    (options.marketType == "spot" &&
     spot.blockDurationMinutes % 60 == 0 && spot.blockDurationMinutes <= 360 &&
     !(spot.spotInstanceType == "persistent" && spot.instanceInterruptionBehavior == "terminate"))
  }

  predicate BlockDeviceValid(d: BlockDevice)
  {
    d.deviceName != "" && d.volumeType in AVAILABLE_BLOCK_TYPES &&
    (d.volumeType == "st1" ==> d.volumeSize >= 500)
  }

  /** Every device is valid and device names are pairwise distinct. */
  predicate BlockDevicesValid(devices: seq<BlockDevice>)
  {
    (forall i :: 0 <= i < |devices| ==> BlockDeviceValid(devices[i])) &&
    (forall i, j :: 0 <= i < j < |devices| ==> devices[i].deviceName != devices[j].deviceName)
  }

  /** The notification target and the role are both set or both empty. */
  predicate HookValid(h: LifecycleHookSpecification)
  {
    (h.notificationTargetARN == "") == (h.roleARN == "")
  }

  predicate HooksValid(hooks: seq<LifecycleHookSpecification>)
  {
    forall i :: 0 <= i < |hooks| ==> HookValid(hooks[i])
  }

  predicate RegionValid(r: RegionConfig, targetAmi: string)
  {
    (targetAmi != "" || r.amiId != "") && r.instanceType != ""
  }

  predicate MixedInstancesValid(m: MixedInstancesPolicy)
  {
    !m.enabled ||
    (!(EffectiveStrategy(m) != "lowest-price" && m.spotInstancePools > 0) && |m.override| > 0)
  }

  predicate StackValid(s: Stack, targetAmi: string)
  {
    ScalingAlarmsValid(s) && SpotValid(s) && BlockDevicesValid(s.blockDevices) &&
    HooksValid(s.lifecycleHooks.launchTransition) && HooksValid(s.lifecycleHooks.terminateTransition) &&
    (forall i :: 0 <= i < |s.regions| ==> RegionValid(s.regions[i], targetAmi)) &&
    MixedInstancesValid(s.mixedInstancesPolicy)
  }

  /** The rules on the command configuration checked before the stacks. */
  predicate LeadingRulesHold(c: Config, metricsFileExists: bool)
  {
    c.stack != "" &&
    !(c.region == "" && c.ami != "" && HasPrefix(c.ami, "ami-")) &&
    (c.disableMetrics || metricsFileExists) &&
    !(c.releaseNotes != "" && c.releaseNotesBase64 != "")
  }

  /** Every stack named after the target passes the per-stack rules. */
  predicate ActiveStacksValid(b: Builder)
  {
    forall i :: 0 <= i < |b.stacks| && b.stacks[i].stack == b.config.stack ==>
      StackValid(b.stacks[i], b.config.ami)
  }

  /** The rules checked after the stacks. */
  predicate TrailingRulesHold(b: Builder)
  {
    b.metricConfig.region != "" && b.metricConfig.storageName != "" &&
    MIN_POLLING_INTERVAL <= b.config.pollingInterval < b.config.timeout
  }

  predicate RulesHold(b: Builder, metricsFileExists: bool)
  {
    LeadingRulesHold(b.config, metricsFileExists) && ActiveStacksValid(b) && TrailingRulesHold(b)
  }
}
