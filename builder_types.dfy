/** The builder's data model: the command-line configuration, the manifest's
    global section and its stacks, and the constants the resolver and the
    validator use. Every record is a plain value, as the Go structs are. */
module BuilderTypes {

  /** Go's int64. */
  newtype int64 = x: int | -0x8000_0000_0000_0000 <= x < 0x8000_0000_0000_0000

  /** Go's time.Duration: a signed count of nanoseconds. */
  type Duration = int64

  const Second: Duration := 1_000_000_000
  const Minute: Duration := 60 * Second

  const DEFAULT_SPOT_ALLOCATION_STRATEGY: string := "lowest-price"
  const DEFAULT_DEPLOYMENT_TIMEOUT: Duration := 60 * Minute
  const DEFAULT_POLLING_INTERVAL: Duration := 60 * Second
  const MIN_POLLING_INTERVAL: Duration := 5 * Second
  const AVAILABLE_BLOCK_TYPES: seq<string> := ["io1", "gp2", "st1", "sc1"]

  datatype Option<T> = None | Some(value: T)

  /** Values collected from the command line. */
  datatype Config = Config(
    manifest: string,
    ami: string,
    env: string,
    stack: string,
    assumeRole: string,
    timeout: Duration,
    startTimestamp: int64,
    region: string,
    confirm: bool,
    slackOff: bool,
    logLevel: string,
    extraTags: string,
    ansibleExtraVars: string,
    overrideInstanceType: string,
    disableMetrics: bool,
    releaseNotes: string,
    releaseNotesBase64: string,
    forceManifestCapacity: bool,
    pollingInterval: Duration)

  /** The command line's defaults for every option the user did not give:
      a 60-minute timeout, confirmation on, log level "info", polling
      interval 0 (unset). The start timestamp is the clock reading. */
  function DefaultConfig(startTimestamp: int64): Config
  {
    Config("", "", "", "", "", DEFAULT_DEPLOYMENT_TIMEOUT, startTimestamp, "",
           true, false, "info", "", "", "", false, "", "", false, 0)
  }

  datatype Userdata = Userdata(typ: string, path: string)

  /** The manifest's global section. */
  datatype AWSConfig = AWSConfig(name: string, userdata: Userdata, tags: seq<string>)

  /** Configuration for metrics; only the two fields the validator reads. */
  datatype MetricConfig = MetricConfig(region: string, storageName: string)

  datatype ScalePolicy = ScalePolicy(
    name: string,
    adjustmentType: string,
    scalingAdjustment: int64,
    cooldown: int64)

  datatype AlarmConfigs = AlarmConfigs(
    name: string,
    namespace: string,
    metric: string,
    statistic: string,
    comparison: string,
    period: int64,
    evaluationPeriods: int64,
    alarmActions: seq<string>)

  datatype LifecycleHookSpecification = LifecycleHookSpecification(
    defaultResult: string,
    heartbeatTimeout: int64,
    lifecycleHookName: string,
    notificationMetadata: string,
    notificationTargetARN: string,
    roleARN: string)

  datatype LifecycleHooks = LifecycleHooks(
    launchTransition: seq<LifecycleHookSpecification>,
    terminateTransition: seq<LifecycleHookSpecification>)

  datatype SpotOptions = SpotOptions(
    blockDurationMinutes: int64,
    instanceInterruptionBehavior: string,
    maxPrice: string,
    spotInstanceType: string)

  datatype InstanceMarketOptions = InstanceMarketOptions(marketType: string, spotOptions: SpotOptions)

  datatype MixedInstancesPolicy = MixedInstancesPolicy(
    enabled: bool,
    override: seq<string>,
    onDemandPercentage: int64,
    spotAllocationStrategy: string,
    spotInstancePools: int64,
    spotMaxPrice: string)

  datatype BlockDevice = BlockDevice(deviceName: string, volumeSize: int64, volumeType: string)

  datatype LifecycleCallbacks = LifecycleCallbacks(preTerminatePastClusters: seq<string>)

  datatype RegionConfig = RegionConfig(
    region: string,
    usePublicSubnets: bool,
    instanceType: string,
    sshKey: string,
    amiId: string,
    vpc: string,
    securityGroups: seq<string>,
    healthcheckLB: string,
    healthcheckTargetGroup: string,
    targetGroups: seq<string>,
    loadBalancers: seq<string>,
    availabilityZones: seq<string>)

  datatype Capacity = Capacity(min: int64, max: int64, desired: int64)

  /** One deployable stack of the manifest. */
  datatype Stack = Stack(
    stack: string,
    account: string,
    env: string,
    replacementType: string,
    userdata: Userdata,
    iamInstanceProfile: string,
    ansibleTags: string,
    assumeRole: string,
    ebsOptimized: bool,
    instanceMarketOptions: InstanceMarketOptions,
    mixedInstancesPolicy: MixedInstancesPolicy,
    blockDevices: seq<BlockDevice>,
    capacity: Capacity,
    autoscaling: seq<ScalePolicy>,
    alarms: seq<AlarmConfigs>,
    lifecycleCallbacks: LifecycleCallbacks,
    lifecycleHooks: LifecycleHooks,
    regions: seq<RegionConfig>,
    pollingInterval: Duration)

  /** Go's zero value of Stack: what the resolver uses when no stack of the
      manifest has the requested name. */
  function ZeroStack(): Stack
  {
    Stack("", "", "", "", Userdata("", ""), "", "", "", false,
          InstanceMarketOptions("", SpotOptions(0, "", "", "")),
          MixedInstancesPolicy(false, [], 0, "", 0, ""),
          [], Capacity(0, 0, 0), [], [], LifecycleCallbacks([]),
          LifecycleHooks([], []), [], 0)
  }

  /** The builder: command configuration, the manifest's global section,
      the metrics configuration and the manifest's stacks. */
  datatype Builder = Builder(
    config: Config,
    awsConfig: AWSConfig,
    metricConfig: MetricConfig,
    stacks: seq<Stack>)

  /** Go's strings.HasPrefix. */
  predicate HasPrefix(s: string, prefix: string)
  {
    |prefix| <= |s| && s[..|prefix|] == prefix
  }
}
