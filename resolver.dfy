/** The configuration resolver (Builder.SetStacks): merges the command-line
    configuration with the parsed manifest, broadcasts the assume-role
    override to every stack, selects the active stack and back-fills the
    environment and the polling interval from it. */
module Resolver {
  import opened BuilderTypes

  /** The stack the run deploys: the first stack named `name` in manifest
      order, or the zero stack when none has that name. */
  function ActiveStack(stacks: seq<Stack>, name: string): Stack
  {
    if |stacks| == 0 then ZeroStack()
    else if stacks[0].stack == name then stacks[0]
    else ActiveStack(stacks[1..], name)
  }

  /** When some stack is named `name`, the active stack is the one at the
      first such position. */
  lemma {:induction false} ActiveStackIsFirstMatch(stacks: seq<Stack>, name: string, k: nat)
    requires k < |stacks| && stacks[k].stack == name
    requires forall j :: 0 <= j < k ==> stacks[j].stack != name
    ensures ActiveStack(stacks, name) == stacks[k]
  {
    if k > 0 {
      ActiveStackIsFirstMatch(stacks[1..], name, k - 1);
    }
  }

  /** When no stack is named `name`, the active stack is the zero stack. */
  lemma {:induction false} ActiveStackWithoutMatch(stacks: seq<Stack>, name: string)
    requires forall j :: 0 <= j < |stacks| ==> stacks[j].stack != name
    ensures ActiveStack(stacks, name) == ZeroStack()
  {
    if |stacks| > 0 {
      ActiveStackWithoutMatch(stacks[1..], name);
    }
  }

  /** Stacks that differ only in their assume-role select the same active
      stack, up to that field: the role broadcast does not change which
      stack is active, nor the environment or polling interval read from it. */
  lemma {:induction false} ActiveStackIgnoresAssumeRole(stacks: seq<Stack>, stacks': seq<Stack>, name: string)
    requires |stacks'| == |stacks|
    requires forall j :: 0 <= j < |stacks| ==> stacks'[j] == stacks[j].(assumeRole := stacks'[j].assumeRole)
    ensures ActiveStack(stacks', name) == ActiveStack(stacks, name).(assumeRole := ActiveStack(stacks', name).assumeRole)
  {
    if |stacks| > 0 && stacks[0].stack != name {
      ActiveStackIgnoresAssumeRole(stacks[1..], stacks'[1..], name);
    }
  }

  /** Polling-interval precedence: a non-zero command value, else the
      stack's value when positive, else the 60-second default. */
  function ResolvePollingInterval(command: Duration, stackValue: Duration): (d: Duration)
    ensures d != 0
    ensures command != 0 ==> d == command
    ensures command == 0 ==> d > 0
  {
    if command != 0 then command
    else if stackValue > 0 then stackValue
    else DEFAULT_POLLING_INTERVAL
  }

  /** The stack's value replaces an unset command value only when it is
      positive; otherwise the default is used. */
  lemma PollingIntervalFallsBackInOrder(stackValue: Duration)
    ensures stackValue > 0 ==> ResolvePollingInterval(0, stackValue) == stackValue
    ensures stackValue <= 0 ==> ResolvePollingInterval(0, stackValue) == DEFAULT_POLLING_INTERVAL
  {
  }

  /** A stack value of 90s with no command value gives 90s; no value
      anywhere gives 60s; a command value of 45s wins over any stack value. */
  lemma PollingIntervalExamples(stackValue: Duration)
    ensures ResolvePollingInterval(0, 90 * Second) == 90 * Second
    ensures ResolvePollingInterval(0, 0) == 60 * Second
    ensures ResolvePollingInterval(45 * Second, stackValue) == 45 * Second
  {
  }

  /** With the command-line defaults (polling interval unset, 60-minute
      timeout), the resolved polling interval lies within the validator's
      bounds unless the stack sets one of at least the timeout. */
  lemma DefaultPollingWithinBounds(startTimestamp: int64, stackValue: Duration)
    requires stackValue <= 0 || MIN_POLLING_INTERVAL <= stackValue < DEFAULT_DEPLOYMENT_TIMEOUT
    ensures var c := DefaultConfig(startTimestamp);
      var d := ResolvePollingInterval(c.pollingInterval, stackValue);
      MIN_POLLING_INTERVAL <= d < c.timeout
  {
  }

  /** The loop of SetStacks that writes a non-empty role override into
      every stack of the list. */
  method BroadcastAssumeRole(parsed: seq<Stack>, role: string) returns (stacks: seq<Stack>)
    ensures |stacks| == |parsed|
    ensures forall i :: 0 <= i < |parsed| ==>
      stacks[i] == if role != "" then parsed[i].(assumeRole := role) else parsed[i]
  {
    stacks := parsed;
    if |role| > 0 {
      var i := 0;
      while i < |stacks|
        invariant 0 <= i <= |stacks| == |parsed|
        invariant forall k :: 0 <= k < i ==> stacks[k] == parsed[k].(assumeRole := role)
        invariant forall k :: i <= k < |stacks| ==> stacks[k] == parsed[k]
      {
        stacks := stacks[i := stacks[i].(assumeRole := role)];
        i := i + 1;
      }
    }
  }

  /** The scan of SetStacks that stops at the first stack named `name`. */
  method FindDeployStack(stacks: seq<Stack>, name: string) returns (deployStack: Stack)
    ensures deployStack == ActiveStack(stacks, name)
  {
    deployStack := ZeroStack();
    var j := 0;
    while j < |stacks|
      invariant 0 <= j <= |stacks|
      invariant ActiveStack(stacks[j..], name) == ActiveStack(stacks, name)
      invariant deployStack == ZeroStack()
    {
      if name == stacks[j].stack {
        deployStack := stacks[j];
        break;
      }
      assert stacks[j..][1..] == stacks[j + 1..];
      j := j + 1;
    }
  }

  /** Resolves `b` against the parsed manifest (`awsConfig`, `parsed`). */
  method SetStacks(b: Builder, awsConfig: AWSConfig, parsed: seq<Stack>) returns (r: Builder)
    // the role override reaches every stack and changes nothing else
    ensures |r.stacks| == |parsed|
    ensures forall i :: 0 <= i < |parsed| ==>
      r.stacks[i].assumeRole == (if b.config.assumeRole != "" then b.config.assumeRole else parsed[i].assumeRole)
    ensures forall i :: 0 <= i < |parsed| ==>
      r.stacks[i].(assumeRole := parsed[i].assumeRole) == parsed[i]
    // env and polling interval are back-filled from the active stack
    ensures r.config.env ==
      (if b.config.env == "" then ActiveStack(parsed, b.config.stack).env else b.config.env)
    ensures r.config.pollingInterval ==
      ResolvePollingInterval(b.config.pollingInterval, ActiveStack(parsed, b.config.stack).pollingInterval)
    // nothing else of the configuration changes
    ensures r.config == b.config.(env := r.config.env, pollingInterval := r.config.pollingInterval)
    ensures r.awsConfig == awsConfig && r.metricConfig == b.metricConfig
  {
    var stacks := BroadcastAssumeRole(parsed, b.config.assumeRole);
    r := b.(awsConfig := awsConfig, stacks := stacks);

    var deployStack := FindDeployStack(stacks, b.config.stack);
    ActiveStackIgnoresAssumeRole(parsed, stacks, b.config.stack);
    var config := r.config;

    if |config.env| == 0 {
      config := config.(env := deployStack.env);
    }

    if config.pollingInterval == 0 {
      if deployStack.pollingInterval > 0 {
        config := config.(pollingInterval := deployStack.pollingInterval);
      } else {
        config := config.(pollingInterval := DEFAULT_POLLING_INTERVAL);
      }
    }
    r := r.(config := config);
  }
}
