# goployer configuration core in Dafny

A model of the part of goployer that turns a deployment manifest plus
command-line overrides into one validated configuration, before any AWS call
is made. It covers four pieces of `pkg/builder/builder.go` and one helper of
`pkg/tool/common.go`:

- **Data model** (`builder_types.dfy`, module `BuilderTypes`): `Config`,
  `AWSConfig`, `Userdata`, `Stack` and everything it holds (`ScalePolicy`,
  `AlarmConfigs`, `InstanceMarketOptions`/`SpotOptions`, `MixedInstancesPolicy`,
  `BlockDevice`, `LifecycleHooks`/`LifecycleHookSpecification`,
  `LifecycleCallbacks`, `RegionConfig`, `Capacity`), the `Builder` record, and
  the constants (default spot strategy, 60-minute timeout, 60s default and 5s
  minimum polling interval, the block-type allow-list). Go's `int64` is a
  `newtype`; `time.Duration` is an `int64` count of nanoseconds, as in Go.
  `MetricConfig` keeps the two fields the validator reads, the metrics region
  and the storage name.
- **Resolver** (`resolver.dfy`, module `Resolver`): `SetStacks`. A non-empty
  assume-role is written into every stack. The active stack is the first one
  whose name matches `Config.Stack`, or Go's zero stack when none matches.
  `Env` is back-filled from the active stack when empty. `PollingInterval`
  keeps a non-zero command value, else takes the stack's value if positive,
  else 60s. The Go method has a value receiver, so the model is a method over
  `Builder` values that returns the new value; its loops (the role broadcast
  and the scan that stops at the first match) are methods proved against the
  functions `ActiveStack` and `ResolvePollingInterval`.
- **Validator** (`validation.dfy`, module `Validation`): `CheckValidation` and
  the per-stack loops, as methods with loop invariants and early returns.
  They are proved equal to `ValidationSpec.Validate` (`validation_spec.dfy`), a
  fail-fast chain of functions that returns the first violated rule in the
  source's order. `ValidationSpec.RulesHold` states every rule at once, without
  order. `validation_lemmas.dfy` proves that `Validate` returns None exactly when
  `RulesHold`. It also proves the order in which errors are reported, that only
  stacks named after the target are inspected, what a reported error says about
  the input, and the boundary cases of the rules. Go's `error` becomes
  `Option<ValidationError>`, with one constructor per error the source returns.
  Whether the metrics configuration file exists is a boolean input.
- **Userdata provider selection** (`userdata.dfy`, module `UserdataProviders`):
  `SetUserdataProvider` fills an empty type and an empty path from the default
  userdata, one field at a time. Type `"s3"` selects the S3 provider; any other
  type selects the local-file provider. Both carry the resolved path.
- **`IsStringInArray`** (`tool.dfy`, module `Tool`): the linear membership scan
  with early return. The validator's methods use it for the alarm-action lookup,
  the volume-type allow-list and the duplicate device names.

Notes on fidelity:

- Go's `%` truncates toward zero and Dafny's is Euclidean. The spot rule only
  asks whether `BlockDurationMinutes % 60` is zero, and both operators agree on
  that for every input, negative ones included.
- A spot block duration of 0 is accepted, and so is a negative multiple of 60.
  The code checks only `% 60 == 0` and `<= 360`, not positivity. The model
  follows the code.
- With no stack named after the target, no per-stack rule runs. This is the
  silent fallback to the zero stack (`ValidationLemmas.UnknownStackSkipsStackRules`).
- `CheckValidation` is one Go function. In the model its per-stack loops are
  split into the methods `CheckStack`, `CheckScalingAlarms`,
  `CheckBlockDevices`, `CheckLifecycleHooks` and `CheckRegions`, called in the
  source's order.
- The default spot allocation strategy is applied to the loop's own copy of the
  stack. The builder passed in is never changed, because every value is
  immutable in the model.

## Model

| member | source | states |
|---|---|---|
| `Tool.IsStringInArray` | pkg/tool/common.go:97-104 | true exactly when some element of the array equals the string; false on an empty array |
| `Tool.IsStringInArrayAppend` | pkg/tool/common.go:97-104 | appending one name (the `policies`/`dNames` lists) adds exactly that name to what is found |
| `Tool.IsStringInArrayStopsAtFirstMatch` | pkg/tool/common.go:99-101 | any array holding the string yields true, whatever follows the first match |
| `Tool.IsStringInArrayOnlyElementsMatter` | pkg/tool/common.go:97-104 | the result depends only on which elements occur, not on order or duplicates |
| `Resolver.ActiveStackIsFirstMatch` | pkg/builder/builder.go:242-248 | when some stack has the target name, the active stack is the first such stack |
| `Resolver.ActiveStackWithoutMatch` | pkg/builder/builder.go:242-248 | when no stack has the target name, the active stack is the zero-valued stack |
| `Resolver.ActiveStackIgnoresAssumeRole` | pkg/builder/builder.go:234-248 | overwriting assume-roles does not change which stack is active or any field of it but the role |
| `Resolver.ResolvePollingInterval` | pkg/builder/builder.go:254-260 | the resolved interval is never unset; a non-zero command value is kept; otherwise it is positive |
| `Resolver.PollingIntervalFallsBackInOrder` | pkg/builder/builder.go:254-260 | with no command value, a positive stack value is used, and otherwise the 60s default |
| `Resolver.PollingIntervalExamples` | pkg/builder/builder.go:254-260 | stack 90s gives 90s; nothing set gives 60s; command 45s wins over any stack value |
| `Resolver.DefaultPollingWithinBounds` | pkg/builder/builder.go:15-22 | with the command-line defaults, the resolved interval lies in [5s, 60m) unless the stack sets one outside it |
| `Resolver.BroadcastAssumeRole` | pkg/builder/builder.go:234-238 | a non-empty role is written into every stack and nothing else changes; an empty one leaves the list as it was |
| `Resolver.FindDeployStack` | pkg/builder/builder.go:242-248 | the scan that breaks at the first name match returns the active stack |
| `Resolver.SetStacks` | pkg/builder/builder.go:228-263 | every stack gets the role override (and keeps all other fields); the length is unchanged; Env is back-filled from the active stack only when empty; the polling interval follows the precedence; no other configuration field changes |
| `ValidationSpec.BlockDeviceErrorFrom` | pkg/builder/builder.go:332-353 | the device check raises only the four device errors |
| `ValidationSpec.HookError` | pkg/builder/builder.go:356-386 | the hook check raises only the two ARN-pairing errors |
| `ValidationSpec.RegionError` | pkg/builder/builder.go:389-399 | the region check raises only the missing-AMI and missing-instance-type errors |
| `ValidationSpec.StacksError` | pkg/builder/builder.go:292-415 | the stack loop raises only per-stack errors |
| `ValidationLemmas.MissingActionInNone` | pkg/builder/builder.go:308-312 | an alarm's actions pass exactly when each is a policy name |
| `ValidationLemmas.MissingActionNone` | pkg/builder/builder.go:307-313 | all alarms pass exactly when every action of every alarm is a policy name |
| `ValidationLemmas.PolicyNamesMembership` | pkg/builder/builder.go:300-306 | a name is in the collected `policies` list exactly when some policy has it |
| `ValidationLemmas.ScalingAlarmErrorNone` | pkg/builder/builder.go:299-314 | with both policies and alarms present, the check passes exactly when every policy is named and every alarm action names a policy |
| `ValidationLemmas.BlockDeviceErrorFromNone` | pkg/builder/builder.go:332-353 | the device loop passes exactly when each device has a name, an allowed type and st1 size at least 500, and the names are pairwise distinct |
| `ValidationLemmas.BlockDeviceErrorNone` | pkg/builder/builder.go:332-353 | a stack's devices pass exactly when they are all valid and uniquely named |
| `ValidationLemmas.HookErrorNone` | pkg/builder/builder.go:356-386 | the hooks pass exactly when each has both or neither of notification target and role ARN |
| `ValidationLemmas.RegionErrorNone` | pkg/builder/builder.go:389-399 | the regions pass exactly when each has an instance type and an AMI id unless a global AMI is set |
| `ValidationLemmas.StackErrorNone` | pkg/builder/builder.go:297-414 | a stack passes the per-stack checks exactly when it satisfies every per-stack rule |
| `ValidationLemmas.StacksErrorNone` | pkg/builder/builder.go:292-415 | the stack loop passes exactly when every stack named after the target is valid |
| `ValidationLemmas.ValidateNoneIffRulesHold` | pkg/builder/builder.go:266-433 | CheckValidation returns nil exactly when all rules hold together |
| `ValidationLemmas.ValidResultFacts` | pkg/builder/builder.go:271-289 | nil implies: stack chosen; no "ami-" AMI without a region; release notes not both set; metrics region and storage set; 5s <= polling < timeout |
| `ValidationLemmas.ValidateReportsInOrder` | pkg/builder/builder.go:266-433 | a per-stack error only after the four leading rules hold; a trailing error only when they hold and every active stack is valid |
| `ValidationLemmas.StacksErrorLocated` | pkg/builder/builder.go:292-296 | a per-stack error comes from a stack whose name equals the target |
| `ValidationLemmas.OtherStacksIgnored` | pkg/builder/builder.go:292-296 | replacing stacks not named after the target does not change the result |
| `ValidationLemmas.UnknownStackSkipsStackRules` | pkg/builder/builder.go:292-296 | with no stack of the target name, validation runs as if the manifest had no stacks |
| `ValidationLemmas.MissingActionLocated` | pkg/builder/builder.go:307-313 | a reported unknown action occurs in some alarm and is no policy name |
| `ValidationLemmas.MissingActionInLocated` | pkg/builder/builder.go:308-312 | the unknown action reported for one alarm is one of its actions and no policy name |
| `ValidationLemmas.DuplicateDeviceNameLocated` | pkg/builder/builder.go:347-351 | a reported duplicate name is carried by a device and by an earlier one |
| `ValidationLemmas.St1SizeBoundary` | pkg/builder/builder.go:343-345 | st1 with 499 or 400 GiB fails and with 500 GiB passes |
| `ValidationLemmas.DuplicateDevicesRejected` | pkg/builder/builder.go:347-349 | two devices with the same name are rejected with that name |
| `ValidationLemmas.SpotBlockDurationExamples` | pkg/builder/builder.go:317-329 | durations 90 and 420 fail, 360 and 0 pass; persistent with terminate fails, with stop passes |
| `ValidationLemmas.MixedInstancesStrategyExamples` | pkg/builder/builder.go:402-414 | an empty strategy defaults to lowest-price, so pools are allowed; another strategy with pools fails; no override fails |
| `ValidationLemmas.ReleaseNotesConflictRejected` | pkg/builder/builder.go:286-289 | release notes given both plain and base64 always fail validation |
| `ValidationLemmas.PollingIntervalBounds` | pkg/builder/builder.go:425-430 | 3s fails as too small, the timeout itself fails, one second below the timeout passes |
| `Validation.CheckScalingAlarms` | pkg/builder/builder.go:299-314 | the two loops (collect names, then look up every action) return the first autoscaling/alarm error |
| `Validation.CheckBlockDevices` | pkg/builder/builder.go:332-353 | the device loop with the growing `dNames` list returns the first device error |
| `Validation.CheckLifecycleHooks` | pkg/builder/builder.go:356-370 | one hook loop returns the first ARN-pairing error; a zero heartbeat does not fail |
| `Validation.CheckRegions` | pkg/builder/builder.go:389-399 | the region loop returns the first missing AMI or instance type, AMI first within a region |
| `Validation.CheckStack` | pkg/builder/builder.go:297-414 | the per-stack rules in source order: alarms, spot, devices, launch then terminate hooks, regions, mixed instances |
| `Validation.CheckValidation` | pkg/builder/builder.go:266-433 | returns exactly the first violated rule in the fixed order, or None |
| `UserdataProviders.SetUserdataProvider` | pkg/builder/builder.go:569-587 | S3 provider exactly when the stack's type is "s3", or it is empty and the default's is; the path is the stack's, or the default's when empty |
| `UserdataProviders.FieldsResolveIndependently` | pkg/builder/builder.go:572-578 | the provider kind depends only on the types and the path only on the paths |
| `UserdataProviders.CompleteUserdataIgnoresDefault` | pkg/builder/builder.go:571-578 | a stack userdata with both fields set ignores the default |
| `UserdataProviders.OnlyS3SelectsS3` | pkg/builder/builder.go:580-586 | any other non-empty type, "S3" included, selects the local provider |
| `UserdataProviders.UserdataFallbackExamples` | pkg/builder/builder.go:569-587 | {"",""} with default {local,/a.sh} is local /a.sh; {s3,""} with default path /b.sh is S3 /b.sh |

## Left out

- `argumentParsing` (Go `flag` parsing and the clock): `Config` is an input; its defaults are `BuilderTypes.DefaultConfig`.
- `parsingManifestFile` and `NewBuilder`'s manifest existence check (file reads, YAML decoding, process exit): the parsed `AWSConfig` and stack list are inputs to `SetStacks`.
- `LocalProvider.Provide` and `S3Provider.Provide` (file checks, file reads, base64 encoding, process exit; the S3 one returns ""): only the choice of provider and its path are modelled.
- `MakeSummary` and `printEnvironment`: text formatting only.
- `tool.FileExists`, `ErrorLogging`, `FatalError`, `CheckTimeout`, `GetKstTimestamp`: file system, process exit, wall clock and time zones. `FileExists(METRIC_YAML_PATH)` is the `metricsFileExists` input of `CheckValidation`.
- `tool.isZero` and `IsZero`: reflection over arbitrary Go values.
- Logging calls (the heartbeat-timeout warning among them): no effect on results.
- `AlarmConfigs.Threshold`: a float64 no rule reads.
- The text of each Go error message: each message is a `ValidationError` constructor that keeps the value the message prints (action, market type, volume type, device name, hook name, AMI).
- The in-place update of the stack slice in `SetStacks`: the slice comes fresh from the manifest parser and nothing else refers to it, so the model builds the new list as a value.
