/**
 * The setup command as the imperative code it is: `take_action` appends effects
 * to the command's trace one call at a time, reassigns the external address on
 * the parsed arguments, and runs its two waiting loops over the oracle replies.
 * Each method is proved against the reference semantics in module Bootstrap.
 */
module SetupCommand {
  import opened Wrappers
  import opened Trace
  import opened Arguments
  import opened Bootstrap

  /** `parsed_args`: the external address is the one field take_action reassigns. */
  class ParsedArgs {
    var externalAddress: Option<string>
    const factionPath: string
    const release: string
    const components: seq<string>
    const buildFromSource: bool
    const buildForDevEnvironment: bool

    constructor (args: Args)
      ensures Value() == args
    {
      externalAddress := args.externalAddress;
      factionPath := args.factionPath;
      release := args.release;
      components := args.components;
      buildFromSource := args.buildFromSource;
      buildForDevEnvironment := args.buildForDevEnvironment;
    }

    function Value(): Args
      reads this
    {
      Args(externalAddress, factionPath, release, components, buildFromSource, buildForDevEnvironment)
    }
  }

  /**
   * setup.py:109-115: read answers until one is a key of `options`. A `None`
   * selection means every answer was rejected and the prompt would still be open.
   */
  method PromptForNic(options: map<string, string>, answers: seq<string>)
    returns (log: seq<Action>, selection: Option<string>)
    ensures selection.Some? ==> selection.value in options
    ensures selection.Some? <==> exists k :: 0 <= k < |answers| && answers[k] in options
    ensures match FirstValid(options, answers)
            case None => selection == None && log == Prompts(answers)
            case Some(k) => selection == Some(answers[k]) && log == Prompts(answers[..k + 1])
  {
    log := [];
    var i := 0;
    while i < |answers|
      invariant 0 <= i <= |answers|
      invariant log == Prompts(answers[..i])
      invariant forall j :: 0 <= j < i ==> answers[j] !in options
    {
      var answer := answers[i];
      log := log + [Prompt(answer)];
      if answer in options {
        FirstValidAt(options, answers, i);
        return log, Some(answer);
      }
      i := i + 1;
    }
    assert answers[..i] == answers;
    selection := None;
  }

  /**
   * setup.py:174-186: wait 30 seconds, then query the core container until a
   * present reply reads "running"; an absent reply costs another 15 seconds, a
   * present one that is not running is re-queried at once. `ready` is false when
   * the replies ran out first.
   */
  method WaitForCore(statuses: seq<Option<string>>) returns (log: seq<Action>, ready: bool)
    ensures ready <==> exists k :: 0 <= k < |statuses| && IsRunning(statuses[k])
    ensures log == Readiness(statuses)
  {
    log := [Sleep(WarmUpSeconds)];
    var coreDown := true;
    var i := 0;
    while coreDown && i < |statuses|
      invariant 0 <= i <= |statuses|
      invariant log == [Sleep(WarmUpSeconds)] + PollLog(statuses[..i])
      invariant coreDown ==> forall j :: 0 <= j < i ==> !IsRunning(statuses[j])
      invariant !coreDown ==> 0 < i && FirstRunning(statuses) == Some(i - 1)
    {
      var status := statuses[i];
      assert statuses[..i + 1][..i] == statuses[..i];
      log := log + [StatusQuery(CoreContainer, status)];
      if status.Some? {
        if Lower(status.value) == "running" {
          FirstRunningAt(statuses, i);
          coreDown := false;
        }
      } else {
        log := log + [Sleep(RetrySeconds)];
      }
      i := i + 1;
    }
    if coreDown {
      assert statuses[..i] == statuses;
    }
    ready := !coreDown;
  }

  /** The command object; its trace is every effect it has had so far. */
  class Setup {
    var trace: seq<Action>

    constructor ()
      ensures trace == []
    {
      trace := [];
    }

    /**
     * setup.py:102-116: check a supplied address, or derive one from the NIC the
     * user picks and store it back into the parsed arguments. `stop` is the
     * outcome when the run cannot go on.
     */
    method ResolveAddress(parsedArgs: ParsedArgs, env: Env) returns (stop: Option<Outcome>)
      modifies this, parsedArgs
      ensures match Resolve(old(parsedArgs.externalAddress), env)
              case Rejected(msg) =>
                stop == Some(Failed(msg)) && trace == old(trace) + [Fatal(msg)]
                && parsedArgs.externalAddress == old(parsedArgs.externalAddress)
              case Unanswered(log) =>
                stop == Some(Blocked(NicPrompt)) && trace == old(trace) + log
                && parsedArgs.externalAddress == old(parsedArgs.externalAddress)
              case Resolved(log, address) =>
                stop == None && trace == old(trace) + log && parsedArgs.externalAddress == Some(address)
    {
      if parsedArgs.externalAddress.Some? && parsedArgs.externalAddress.value != "" {
        var address := parsedArgs.externalAddress.value;
        if !("http://" <= address || "https://" <= address) {
          trace := trace + [Fatal(BadAddressMessage)];
          return Some(Failed(BadAddressMessage));
        }
        return None;
      }
      var ipOptions := env.ipOptions;
      trace := trace + [GetIpAddresses(ipOptions)];
      var prompts, selection := PromptForNic(ipOptions, env.answers);
      trace := trace + prompts;
      if selection.None? {
        return Some(Blocked(NicPrompt));
      }
      parsedArgs.externalAddress := Some("https://" + ipOptions[selection.value]);
      return None;
    }

    /** setup.py:140-161: pick the channel, write one compose file, clone the extras, build. */
    method Deploy(parsedArgs: ParsedArgs)
      modifies this
      ensures trace == old(trace) + Deployment(parsedArgs.Value())
    {
      var dockerTag := "latest";
      var githubRepo := "master";
      if parsedArgs.release == "development" {
        dockerTag := "dev";
        githubRepo := "development";
      }

      ghost var start := trace;
      if parsedArgs.buildFromSource {
        var components := parsedArgs.components;
        for i := 0 to |components|
          invariant trace == start + Downloads(parsedArgs.factionPath, components[..i])
        {
          DownloadsStep(parsedArgs.factionPath, components, i);
          trace := trace + [Download("FactionC2/" + components[i], parsedArgs.factionPath + "/source/" + components[i])];
        }
        assert components[..|components|] == components;
        trace := trace + [WriteBuildCompose];
      } else if parsedArgs.buildForDevEnvironment {
        trace := trace + [WriteDevCompose];
      } else {
        trace := trace + [WriteHubCompose(dockerTag)];
      }
      ghost var composed := trace;

      trace := trace + [Clone(githubRepo, ModulesRepo, parsedArgs.factionPath + "/modules/dotnet")];
      trace := trace + [Clone(githubRepo, AgentRepo, parsedArgs.factionPath + "/agents/Marauder")];
      trace := trace + [BuildFaction];
      ghost var args := parsedArgs.Value();
      assert composed == start + ((if args.buildFromSource then Downloads(args.factionPath, args.components) else [])
                                  + [ComposeWriter(args)]);
      assert trace == composed + AuxiliaryClones(args) + [BuildFaction];
      AppendThree(start, (if args.buildFromSource then Downloads(args.factionPath, args.components) else [])
                         + [ComposeWriter(args)], AuxiliaryClones(args), [BuildFaction]);
    }

    /** setup.py:198-205: create the principals, minting the transport key for the system account. */
    method Provision(env: Env)
      modifies this
      ensures trace == old(trace) + Provisioning(env)
    {
      trace := trace + [CreateRoles];
      trace := trace + [CreateSystemUser];
      trace := trace + [CreateAdminUser];
      var systemId := env.systemId;
      trace := trace + [GetUserId(SystemAccount, systemId)];
      var apiKey := env.apiKey;
      trace := trace + [NewApiKey(TransportKeyType, systemId, systemId, apiKey)];
      trace := trace + [CreateDirectTransport(apiKey)];
    }

    /** setup.py:163-212: the readiness gate or the dev pause, provisioning, restart and summary. */
    method AfterBuild(dev: bool, env: Env) returns (outcome: Outcome)
      modifies this
      ensures trace == old(trace) + Bootstrap.AfterBuild(dev, env).trace
      ensures outcome == Bootstrap.AfterBuild(dev, env).outcome
    {
      ghost var start := trace;
      ghost var head: seq<Action>;
      if dev {
        trace := trace + [Pause];
        head := [Pause];
      } else {
        var waited, ready := WaitForCore(env.statuses);
        trace := trace + waited;
        if !ready {
          return Blocked(CoreReadiness);
        }
        trace := trace + [CreateMigration(InitialMigration)];
        trace := trace + [UpdateDatabase];
        head := waited + [CreateMigration(InitialMigration), UpdateDatabase];
        assert trace == start + head;
      }

      Provision(env);
      ghost var provisioned := trace;
      if !dev {
        trace := trace + [RestartCore(CoreContainer)];
      }
      trace := trace + [ReadConfig];
      trace := trace + [Summary];
      assert trace == provisioned + Wrapup(dev);
      AppendThree(start, head, Provisioning(env), Wrapup(dev));
      outcome := Completed;
    }

    /** setup.py:101-212: the whole bootstrap sequence. */
    method TakeAction(parsedArgs: ParsedArgs, env: Env) returns (outcome: Outcome)
      modifies this, parsedArgs
      ensures trace == old(trace) + Run(old(parsedArgs.Value()), env).trace
      ensures outcome == Run(old(parsedArgs.Value()), env).outcome
      ensures parsedArgs.externalAddress ==
                match Resolve(old(parsedArgs.externalAddress), env)
                case Resolved(_, address) => Some(address)
                case _ => old(parsedArgs.externalAddress)
    {
      ghost var args := parsedArgs.Value();
      ghost var resolution := Resolve(args.externalAddress, env);
      var stop := ResolveAddress(parsedArgs, env);
      if stop.Some? {
        return stop.value;
      }
      trace := trace + [WriteConfig(parsedArgs.externalAddress.value)];
      assert parsedArgs.Value() == args.(externalAddress := Some(resolution.address));
      assert Deployment(parsedArgs.Value()) == Deployment(args);
      Deploy(parsedArgs);
      outcome := AfterBuild(parsedArgs.buildForDevEnvironment, env);
      AppendFour(old(trace), resolution.log, [WriteConfig(resolution.address)], Deployment(args),
                 Bootstrap.AfterBuild(args.buildForDevEnvironment, env).trace);
    }
  }
}
