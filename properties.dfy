/**
 * What the bootstrap sequence guarantees, stated over the trace of one run of
 * Bootstrap.Run: what is rejected before the configuration is written, which
 * steps happen exactly once and in which order, which are skipped in dev mode,
 * and how the readiness gate and the provisioning chain behave.
 */
module BootstrapProperties {
  import opened Wrappers
  import opened Trace
  import opened Arguments
  import opened Bootstrap

  /** The run got past address resolution, so generate_config_file was called. */
  predicate ConfigWritten(args: Args, env: Env)
  {
    Resolve(args.externalAddress, env).Resolved?
  }

  predicate PreConfigStep(a: Action) { a.GetIpAddresses? || a.Prompt? }
  predicate DeployStep(a: Action) { a.Download? || IsComposeWrite(a) || a.Clone? || a.BuildFaction? }
  predicate FrontStep(a: Action) { PreConfigStep(a) || a.WriteConfig? || DeployStep(a) }
  predicate PollStepKind(a: Action) { a.StatusQuery? || a == Sleep(RetrySeconds) }
  predicate LateStep(a: Action)
  {
    a.Pause? || a.Sleep? || a.StatusQuery? || IsMigrationStep(a) || IsProvisioningStep(a)
    || a.RestartCore? || a.ReadConfig? || a.Summary?
  }

  // ------------------------------------------------------- segment shapes

  lemma ResolutionLogKinds(supplied: Option<string>, env: Env)
    ensures Resolve(supplied, env).Resolved? ==>
              forall i :: 0 <= i < |Resolve(supplied, env).log| ==> PreConfigStep(Resolve(supplied, env).log[i])
    ensures Resolve(supplied, env).Unanswered? ==>
              forall i :: 0 <= i < |Resolve(supplied, env).log| ==> PreConfigStep(Resolve(supplied, env).log[i])
  {
  }

  lemma DeploymentKinds(args: Args)
    ensures forall i :: 0 <= i < |Deployment(args)| ==> DeployStep(Deployment(args)[i])
  {
    var d := if args.buildFromSource then Downloads(args.factionPath, args.components) else [];
    assert forall i :: 0 <= i < |d| ==> d[i].Download?;
    assert Deployment(args) == d + ([ComposeWriter(args)] + AuxiliaryClones(args) + [BuildFaction]);
  }

  /** The poll loop only queries the core and waits the retry interval. */
  lemma {:induction false} PollLogKinds(replies: seq<Option<string>>)
    ensures forall i :: 0 <= i < |PollLog(replies)| ==> PollStepKind(PollLog(replies)[i])
  {
    if replies != [] {
      PollLogKinds(replies[..|replies| - 1]);
    }
  }

  lemma ReadinessKinds(statuses: seq<Option<string>>)
    ensures forall i :: 0 <= i < |Readiness(statuses)| ==>
              Readiness(statuses)[i].StatusQuery? || Readiness(statuses)[i].Sleep?
  {
    match FirstRunning(statuses)
    case None => PollLogKinds(statuses);
    case Some(k) => PollLogKinds(statuses[..k + 1]);
  }

  lemma AfterBuildKinds(dev: bool, env: Env)
    ensures forall i :: 0 <= i < |AfterBuild(dev, env).trace| ==> LateStep(AfterBuild(dev, env).trace[i])
  {
    ReadinessKinds(env.statuses);
  }

  /** A run that wrote its configuration splits into resolution, deployment and the rest. */
  lemma Segments(args: Args, env: Env) returns (pre: seq<Action>, deploy: seq<Action>, post: seq<Action>)
    requires ConfigWritten(args, env)
    ensures Run(args, env).trace == pre + deploy + post
    ensures Run(args, env).outcome == AfterBuild(args.buildForDevEnvironment, env).outcome
    ensures pre == Resolve(args.externalAddress, env).log + [WriteConfig(Resolve(args.externalAddress, env).address)]
    ensures deploy == Deployment(args)
    ensures post == AfterBuild(args.buildForDevEnvironment, env).trace
    ensures forall i :: 0 <= i < |pre| - 1 ==> PreConfigStep(pre[i])
    ensures forall i :: 0 <= i < |pre| ==> PreConfigStep(pre[i]) || pre[i].WriteConfig?
    ensures forall i :: 0 <= i < |deploy| ==> DeployStep(deploy[i])
    ensures forall i :: 0 <= i < |post| ==> LateStep(post[i])
  {
    var r := Resolve(args.externalAddress, env);
    pre := r.log + [WriteConfig(r.address)];
    deploy := Deployment(args);
    post := AfterBuild(args.buildForDevEnvironment, env).trace;
    ResolutionLogKinds(args.externalAddress, env);
    DeploymentKinds(args);
    AfterBuildKinds(args.buildForDevEnvironment, env);
  }

  /** The same split with resolution and deployment taken together. */
  lemma FrontAndRest(args: Args, env: Env) returns (front: seq<Action>, post: seq<Action>)
    requires ConfigWritten(args, env)
    ensures Run(args, env).trace == front + post
    ensures Run(args, env).outcome == AfterBuild(args.buildForDevEnvironment, env).outcome
    ensures post == AfterBuild(args.buildForDevEnvironment, env).trace
    ensures forall i :: 0 <= i < |front| ==> FrontStep(front[i])
  {
    var pre, deploy;
    pre, deploy, post := Segments(args, env);
    front := pre + deploy;
    forall i | 0 <= i < |front|
      ensures FrontStep(front[i])
    {
      if i >= |pre| {
        assert front[i] == deploy[i - |pre|];
      } else {
        assert front[i] == pre[i];
      }
    }
  }

  // ------------------------------------------------------ address resolution

  /**
   * A supplied, non-empty address without an http:// or https:// prefix stops
   * the run at error_out: the fatal message is its only effect, so no
   * configuration is written.
   */
  lemma MalformedAddressRejected(args: Args, env: Env)
    requires AddressSupplied(args.externalAddress) && !HasWebScheme(args.externalAddress.value)
    ensures Run(args, env).outcome == Failed(BadAddressMessage)
    ensures Run(args, env).trace == [Fatal(BadAddressMessage)]
    ensures CountWhere(IsWriteConfig, Run(args, env).trace) == 0
  {
  }

  /** error_out is reached exactly when a supplied address lacks a web scheme. */
  lemma FailsOnlyOnMalformedAddress(args: Args, env: Env)
    ensures Run(args, env).outcome.Failed? <==>
              AddressSupplied(args.externalAddress) && !HasWebScheme(args.externalAddress.value)
  {
    if ConfigWritten(args, env) {
      var _, _, _ := Segments(args, env);
    }
  }

  /** The configuration is written once, and only the NIC enumeration and the prompts come before it. */
  lemma ConfigWrittenOnceFirst(args: Args, env: Env) returns (w: nat)
    requires ConfigWritten(args, env)
    ensures w < |Run(args, env).trace|
    ensures Run(args, env).trace[w] == WriteConfig(Resolve(args.externalAddress, env).address)
    ensures forall i :: 0 <= i < w ==> PreConfigStep(Run(args, env).trace[i])
    ensures CountWhere(IsWriteConfig, Run(args, env).trace) == 1
  {
    var pre, deploy, post := Segments(args, env);
    w := |pre| - 1;
    WrittenOnceAt(Run(args, env).trace, pre, deploy + post);
  }

  /** A trace whose write is the last step of its first segment, and whose other steps are not writes. */
  lemma WrittenOnceAt(t: seq<Action>, pre: seq<Action>, rest: seq<Action>)
    requires t == pre + rest && 0 < |pre|
    requires forall i :: 0 <= i < |pre| - 1 ==> PreConfigStep(pre[i])
    requires pre[|pre| - 1].WriteConfig?
    requires forall i :: 0 <= i < |rest| ==> !rest[i].WriteConfig?
    ensures t[|pre| - 1] == pre[|pre| - 1]
    ensures forall i :: 0 <= i < |pre| - 1 ==> PreConfigStep(t[i])
    ensures CountWhere(IsWriteConfig, t) == 1
  {
    var w := |pre| - 1;
    var log := pre[..w];
    assert pre == log + [pre[w]];
    CountWhereFrame(IsWriteConfig, log, [pre[w]], rest);
    assert t == log + [pre[w]] + rest;
  }

  /** A supplied, correctly prefixed address is written unchanged and nobody is prompted. */
  lemma SuppliedAddressUnchanged(args: Args, env: Env)
    requires AddressSupplied(args.externalAddress) && HasWebScheme(args.externalAddress.value)
    ensures |Run(args, env).trace| > 0 && Run(args, env).trace[0] == WriteConfig(args.externalAddress.value)
    ensures CountWhere(IsWriteConfig, Run(args, env).trace) == 1
    ensures CountWhere(IsPrompt, Run(args, env).trace) == 0
  {
    var w := ConfigWrittenOnceFirst(args, env);
    var pre, deploy, post := Segments(args, env);
    CountWhereFrame(IsPrompt, pre, deploy, post);
    CountWhereNone(IsPrompt, deploy);
  }

  /** The resolution step of an interactive run that is answered at index k. */
  lemma InteractiveResolution(supplied: Option<string>, env: Env, k: nat)
    requires !AddressSupplied(supplied)
    requires k < |env.answers| && env.answers[k] in env.ipOptions
    requires forall j :: 0 <= j < k ==> env.answers[j] !in env.ipOptions
    ensures Resolve(supplied, env) == Resolved([GetIpAddresses(env.ipOptions)] + Prompts(env.answers[..k + 1]),
                                               "https://" + env.ipOptions[env.answers[k]])
  {
    FirstValidAt(env.ipOptions, env.answers, k);
  }

  /**
   * Without a usable address the NICs are enumerated once and the user is prompted
   * until answer k, the first known label; the address written is "https://"
   * followed by that NIC's address.
   */
  lemma InteractiveAddress(args: Args, env: Env, k: nat)
    requires !AddressSupplied(args.externalAddress)
    requires k < |env.answers| && env.answers[k] in env.ipOptions
    requires forall j :: 0 <= j < k ==> env.answers[j] !in env.ipOptions
    ensures |Run(args, env).trace| > k + 2
    ensures Run(args, env).trace[0] == GetIpAddresses(env.ipOptions)
    ensures forall j :: 0 <= j <= k ==> Run(args, env).trace[j + 1] == Prompt(env.answers[j])
    ensures Run(args, env).trace[k + 2] == WriteConfig("https://" + env.ipOptions[env.answers[k]])
    ensures CountWhere(IsWriteConfig, Run(args, env).trace) == 1
  {
    InteractiveResolution(args.externalAddress, env, k);
    var w := ConfigWrittenOnceFirst(args, env);
    var pre, deploy, post := Segments(args, env);
    var t := Run(args, env).trace;
    assert t[..|pre|] == pre;
  }

  /** An interactive run answered at index k reads exactly k + 1 answers. */
  lemma InteractivePromptCount(args: Args, env: Env, k: nat)
    requires !AddressSupplied(args.externalAddress)
    requires k < |env.answers| && env.answers[k] in env.ipOptions
    requires forall j :: 0 <= j < k ==> env.answers[j] !in env.ipOptions
    ensures CountWhere(IsPrompt, Run(args, env).trace) == k + 1
  {
    InteractiveResolution(args.externalAddress, env, k);
    var pre, deploy, post := Segments(args, env);
    PromptsIn(Run(args, env).trace, pre, deploy, post, GetIpAddresses(env.ipOptions), Prompts(env.answers[..k + 1]));
  }

  lemma PromptsIn(t: seq<Action>, pre: seq<Action>, deploy: seq<Action>, post: seq<Action>, listing: Action, prompts: seq<Action>)
    requires t == pre + deploy + post && 0 < |pre|
    requires pre[..|pre| - 1] == [listing] + prompts && !pre[|pre| - 1].Prompt? && !listing.Prompt?
    requires forall i :: 0 <= i < |prompts| ==> prompts[i].Prompt?
    requires forall i :: 0 <= i < |deploy| ==> DeployStep(deploy[i])
    requires forall i :: 0 <= i < |post| ==> LateStep(post[i])
    ensures CountWhere(IsPrompt, t) == |prompts|
  {
    var w := pre[|pre| - 1];
    assert pre == [listing] + prompts + [w];
    CountWhereConcat(IsPrompt, pre + deploy, post);
    CountWhereConcat(IsPrompt, pre, deploy);
    CountWhereConcat(IsPrompt, [listing] + prompts, [w]);
    CountWhereConcat(IsPrompt, [listing], prompts);
    CountWhereNone(IsPrompt, [listing]);
    CountWhereNone(IsPrompt, [w]);
    CountWhereNone(IsPrompt, deploy);
    CountWhereNone(IsPrompt, post);
    CountWhereAll(IsPrompt, prompts);
  }

  /** If no answer is a known label the prompt is still open: no configuration is written. */
  lemma UnansweredPromptBlocks(args: Args, env: Env)
    requires !AddressSupplied(args.externalAddress)
    requires forall j :: 0 <= j < |env.answers| ==> env.answers[j] !in env.ipOptions
    ensures Run(args, env).outcome == Blocked(NicPrompt)
    ensures CountWhere(IsWriteConfig, Run(args, env).trace) == 0
    ensures CountWhere(IsPrompt, Run(args, env).trace) == |env.answers|
  {
    var t := Run(args, env).trace;
    var prompts := Prompts(env.answers);
    assert t == [GetIpAddresses(env.ipOptions)] + prompts + [];
    CountWhereNone(IsWriteConfig, t);
    CountWhereFrame(IsPrompt, [GetIpAddresses(env.ipOptions)], prompts, []);
    CountWhereAll(IsPrompt, prompts);
  }

  // ------------------------------------------------------------ deployment

  /** `--release` defaults to one of its two choices, which pulls the latest images from master. */
  lemma ReleaseDefault()
    ensures DefaultRelease in ReleaseChoices && |ReleaseChoices| == 2
    ensures ChannelOf(DefaultRelease) == Channel("latest", "master")
  {
  }

  /**
   * The release channel decides both the image tag and the branch: "development"
   * selects tag "dev" and branch "development"; every other value, the default
   * "stable" among them, keeps tag "latest" and branch "master".
   */
  lemma ReleaseChannels()
    ensures ChannelOf("stable") == Channel("latest", "master")
    ensures ChannelOf("development") == Channel("dev", "development")
    ensures forall r :: ChannelOf(r) == Channel("latest", "master") || ChannelOf(r) == Channel("dev", "development")
    ensures forall r :: ChannelOf(r).dockerTag == "dev" <==> r == "development"
  {
  }

  lemma DeploymentComposeCount(args: Args)
    ensures CountWhere(IsComposeWrite, Deployment(args)) == 1
    ensures ComposeWriter(args) in Deployment(args)
  {
    var d := if args.buildFromSource then Downloads(args.factionPath, args.components) else [];
    var tail := AuxiliaryClones(args) + [BuildFaction];
    assert forall i :: 0 <= i < |d| ==> d[i].Download?;
    assert Deployment(args) == d + [ComposeWriter(args)] + tail;
    CountWhereFrame(IsComposeWrite, d, [ComposeWriter(args)], tail);
    assert CountWhere(IsComposeWrite, [ComposeWriter(args)]) == 1 by {
      assert [ComposeWriter(args)][1..] == [];
    }
    assert Deployment(args)[|d|] == ComposeWriter(args);
  }

  /**
   * Exactly one compose file is written: the build one for a source build, else
   * the dev one in dev mode, else the hub one with the channel's image tag.
   */
  lemma ExactlyOneComposeWriter(args: Args, env: Env)
    requires ConfigWritten(args, env)
    ensures CountWhere(IsComposeWrite, Run(args, env).trace) == 1
    ensures args.buildFromSource ==> WriteBuildCompose in Run(args, env).trace
    ensures !args.buildFromSource && args.buildForDevEnvironment ==> WriteDevCompose in Run(args, env).trace
    ensures !args.buildFromSource && !args.buildForDevEnvironment ==>
              WriteHubCompose(ChannelOf(args.release).dockerTag) in Run(args, env).trace
  {
    var pre, deploy, post := Segments(args, env);
    CountWhereFrame(IsComposeWrite, pre, deploy, post);
    DeploymentComposeCount(args);
  }

  lemma DeploymentDownloads(args: Args)
    ensures Filter(IsDownload, Deployment(args))
            == (if args.buildFromSource then Downloads(args.factionPath, args.components) else [])
  {
    var d := if args.buildFromSource then Downloads(args.factionPath, args.components) else [];
    var tail := [ComposeWriter(args)] + AuxiliaryClones(args) + [BuildFaction];
    assert Deployment(args) == d + tail;
    assert forall i :: 0 <= i < |d| ==> d[i].Download?;
    FilterConcat(IsDownload, d, tail);
    FilterNone(IsDownload, tail);
    FilterAll(IsDownload, d);
  }

  /**
   * Sources are fetched only for a source build: one download per component, in
   * list order, from FactionC2/<component> into <path>/source/<component>, all
   * before the build compose file is written.
   */
  lemma SourceBuildDownloads(args: Args, env: Env)
    requires ConfigWritten(args, env)
    ensures |Filter(IsDownload, Run(args, env).trace)| == (if args.buildFromSource then |args.components| else 0)
    ensures args.buildFromSource ==>
              forall i :: 0 <= i < |args.components| ==>
                Filter(IsDownload, Run(args, env).trace)[i]
                  == Download("FactionC2/" + args.components[i], args.factionPath + "/source/" + args.components[i])
  {
    var pre, deploy, post := Segments(args, env);
    DeploymentDownloads(args);
    OnlyMiddleDownloads(Run(args, env).trace, pre, deploy, post);
  }

  /**
   * With the default install path and components, a source build downloads the
   * four platform repositories, in this order, into the default source tree.
   */
  lemma DefaultSourceBuildDownloads(args: Args, env: Env)
    requires ConfigWritten(args, env) && args.buildFromSource
    requires args.factionPath == DefaultFactionPath && args.components == DefaultComponents
    ensures Filter(IsDownload, Run(args, env).trace) == DefaultSourceDownloads
  {
    var pre, deploy, post := Segments(args, env);
    DeploymentDownloads(args);
    OnlyMiddleDownloads(Run(args, env).trace, pre, deploy, post);
    DefaultDownloads();
  }

  /** The four repositories a default source build fetches, and where they go. */
  const DefaultSourceDownloads: seq<Action> :=
    [Download("FactionC2/Core", "/opt/faction/source/Core"),
     Download("FactionC2/Build-Service-Dotnet", "/opt/faction/source/Build-Service-Dotnet"),
     Download("FactionC2/Console", "/opt/faction/source/Console"),
     Download("FactionC2/API", "/opt/faction/source/API")]

  // The per-component lemmas below only split the literal string concatenations:
  // each one is cheap alone, but together in one proof they exceed the resource limit.
  lemma DefaultDownloads()
    ensures Downloads(DefaultFactionPath, DefaultComponents) == DefaultSourceDownloads
  {
    DefaultDownloadCore();
    DefaultDownloadBuildService();
    DefaultDownloadConsole();
    DefaultDownloadApi();
  }

  lemma DefaultDownloadCore()
    ensures Downloads(DefaultFactionPath, DefaultComponents)[0] == DefaultSourceDownloads[0]
  {
    DefaultDownloadAt(0);
    CoreNames();
  }

  lemma CoreNames()
    ensures "FactionC2/" + "Core" == "FactionC2/Core"
    ensures "/opt/faction/source/" + "Core" == "/opt/faction/source/Core"
  {
  }

  lemma DefaultDownloadBuildService()
    ensures Downloads(DefaultFactionPath, DefaultComponents)[1] == DefaultSourceDownloads[1]
  {
    DefaultDownloadAt(1);
    BuildServiceNames();
  }

  lemma BuildServiceNames()
    ensures "FactionC2/" + "Build-Service-Dotnet" == "FactionC2/Build-Service-Dotnet"
    ensures "/opt/faction/source/" + "Build-Service-Dotnet" == "/opt/faction/source/Build-Service-Dotnet"
  {
  }

  lemma DefaultDownloadConsole()
    ensures Downloads(DefaultFactionPath, DefaultComponents)[2] == DefaultSourceDownloads[2]
  {
    DefaultDownloadAt(2);
    ConsoleNames();
  }

  lemma ConsoleNames()
    ensures "FactionC2/" + "Console" == "FactionC2/Console"
    ensures "/opt/faction/source/" + "Console" == "/opt/faction/source/Console"
  {
  }

  lemma DefaultDownloadApi()
    ensures Downloads(DefaultFactionPath, DefaultComponents)[3] == DefaultSourceDownloads[3]
  {
    DefaultDownloadAt(3);
    ApiNames();
  }

  lemma ApiNames()
    ensures "FactionC2/" + "API" == "FactionC2/API"
    ensures "/opt/faction/source/" + "API" == "/opt/faction/source/API"
  {
  }

  lemma DefaultDownloadAt(i: nat)
    requires i < |DefaultComponents|
    ensures Downloads(DefaultFactionPath, DefaultComponents)[i]
            == Download("FactionC2/" + DefaultComponents[i], "/opt/faction/source/" + DefaultComponents[i])
  {
    assert DefaultFactionPath + "/source/" == "/opt/faction/source/";
  }

  lemma OnlyMiddleDownloads(t: seq<Action>, pre: seq<Action>, deploy: seq<Action>, post: seq<Action>)
    requires t == pre + deploy + post
    requires forall i :: 0 <= i < |pre| ==> PreConfigStep(pre[i]) || pre[i].WriteConfig?
    requires forall i :: 0 <= i < |post| ==> LateStep(post[i])
    ensures Filter(IsDownload, t) == Filter(IsDownload, deploy)
  {
    FilterConcat(IsDownload, pre + deploy, post);
    FilterConcat(IsDownload, pre, deploy);
    FilterNone(IsDownload, pre);
    FilterNone(IsDownload, post);
  }

  /** In a source build every download comes before the build compose file. */
  lemma DownloadsPrecedeBuildCompose(args: Args, env: Env) returns (b: nat)
    requires ConfigWritten(args, env) && args.buildFromSource
    ensures b < |Run(args, env).trace| && Run(args, env).trace[b] == WriteBuildCompose
    ensures forall i :: 0 <= i < |Run(args, env).trace| && Run(args, env).trace[i].Download? ==> i < b
  {
    var pre, deploy, post := Segments(args, env);
    var d := Downloads(args.factionPath, args.components);
    var tail := AuxiliaryClones(args) + [BuildFaction];
    assert deploy == d + [WriteBuildCompose] + tail;
    NoneConcat(IsDownload, [WriteBuildCompose] + tail, post);
    var later := [WriteBuildCompose] + tail + post;
    var t := Run(args, env).trace;
    assert t == (pre + d) + later;
    b := |pre| + |d|;
  }

  /** Where the fixed deployment tail sits inside any trace around a deployment. */
  lemma DeploymentTailAt(pre: seq<Action>, args: Args, post: seq<Action>) returns (c: nat)
    ensures c + 3 < |pre + Deployment(args) + post|
    ensures (pre + Deployment(args) + post)[c] == ComposeWriter(args)
    ensures (pre + Deployment(args) + post)[c + 1..c + 3] == AuxiliaryClones(args)
    ensures (pre + Deployment(args) + post)[c + 3] == BuildFaction
  {
    var d := if args.buildFromSource then Downloads(args.factionPath, args.components) else [];
    var tail := [ComposeWriter(args)] + AuxiliaryClones(args) + [BuildFaction];
    assert Deployment(args) == d + tail;
    var t := pre + Deployment(args) + post;
    assert t == (pre + d) + tail + post;
    c := |pre| + |d|;
    assert t[c..c + 4] == tail;
  }

  /**
   * Whatever the mode, the compose write is followed by the clone of the modules
   * package, the clone of the default agent, both at the channel's branch, and
   * then by build_faction; those two are the only clones of the run.
   */
  lemma AuxiliaryClonesThenBuild(args: Args, env: Env) returns (c: nat)
    requires ConfigWritten(args, env)
    ensures c + 3 < |Run(args, env).trace| && IsComposeWrite(Run(args, env).trace[c])
    ensures Run(args, env).trace[c + 1]
              == Clone(ChannelOf(args.release).githubBranch, ModulesRepo, args.factionPath + "/modules/dotnet")
    ensures Run(args, env).trace[c + 2]
              == Clone(ChannelOf(args.release).githubBranch, AgentRepo, args.factionPath + "/agents/Marauder")
    ensures Run(args, env).trace[c + 3] == BuildFaction
    ensures Filter(IsClone, Run(args, env).trace) == AuxiliaryClones(args)
  {
    var pre, deploy, post := Segments(args, env);
    c := DeploymentTailAt(pre, args, post);
    var t := pre + Deployment(args) + post;
    assert t[c + 1] == t[c + 1..c + 3][0] && t[c + 2] == t[c + 1..c + 3][1];
    DeploymentClones(args);
    OnlyMiddleClones(Run(args, env).trace, pre, deploy, post);
  }

  /** The deployment's only clones are the two auxiliary ones. */
  lemma DeploymentClones(args: Args)
    ensures Filter(IsClone, Deployment(args)) == AuxiliaryClones(args)
  {
    var d := if args.buildFromSource then Downloads(args.factionPath, args.components) else [];
    var aux := AuxiliaryClones(args);
    assert Deployment(args) == d + [ComposeWriter(args)] + aux + [BuildFaction];
    assert forall i :: 0 <= i < |d| ==> d[i].Download?;
    NoneConcat(IsClone, d, [ComposeWriter(args)]);
    Assoc(d + [ComposeWriter(args)], aux, [BuildFaction]);
    FilterFrame(IsClone, d + [ComposeWriter(args)], aux, [BuildFaction]);
    FilterAll(IsClone, aux);
  }

  lemma OnlyMiddleClones(t: seq<Action>, pre: seq<Action>, deploy: seq<Action>, post: seq<Action>)
    requires t == pre + deploy + post
    requires forall i :: 0 <= i < |pre| ==> PreConfigStep(pre[i]) || pre[i].WriteConfig?
    requires forall i :: 0 <= i < |post| ==> LateStep(post[i])
    ensures Filter(IsClone, t) == Filter(IsClone, deploy)
  {
    Assoc(pre, deploy, post);
    FilterFrame(IsClone, pre, deploy, post);
  }

  lemma BuildFactionInDeployment(args: Args)
    ensures Occurrences(Deployment(args), BuildFaction) == 1
  {
    var d := if args.buildFromSource then Downloads(args.factionPath, args.components) else [];
    var before := d + [ComposeWriter(args)] + AuxiliaryClones(args);
    assert forall i :: 0 <= i < |d| ==> d[i].Download?;
    assert BuildFaction !in d;
    assert BuildFaction !in before;
    OnlyInSuffix(before, [BuildFaction], BuildFaction);
  }

  /** build_faction runs once in every run that wrote its configuration. */
  lemma BuildFactionOnce(args: Args, env: Env)
    requires ConfigWritten(args, env)
    ensures Occurrences(Run(args, env).trace, BuildFaction) == 1
  {
    var pre, deploy, post := Segments(args, env);
    BuildFactionInDeployment(args);
    OccurrencesFrame(pre, deploy, post, BuildFaction);
  }

  // ------------------------------------------------------------- readiness

  /** The j-th query of the poll loop carries the j-th reply: every reply is asked for once, in order. */
  lemma {:induction false} PollLogQueries(replies: seq<Option<string>>)
    ensures |Filter(IsStatusQuery, PollLog(replies))| == |replies|
    ensures forall j :: 0 <= j < |replies| ==>
              Filter(IsStatusQuery, PollLog(replies))[j] == StatusQuery(CoreContainer, replies[j])
  {
    if replies != [] {
      var init := replies[..|replies| - 1];
      var last := replies[|replies| - 1];
      PollLogQueries(init);
      FilterConcat(IsStatusQuery, PollLog(init), PollStep(last));
      FilterConcat(IsStatusQuery, [StatusQuery(CoreContainer, last)], if last.None? then [Sleep(RetrySeconds)] else []);
      assert Filter(IsStatusQuery, PollStep(last)) == [StatusQuery(CoreContainer, last)];
      assert forall j :: 0 <= j < |init| ==> replies[j] == init[j];
    }
  }

  /** The poll loop waits the retry interval once per absent reply and never otherwise. */
  lemma {:induction false} PollLogSleeps(replies: seq<Option<string>>)
    ensures Occurrences(PollLog(replies), Sleep(RetrySeconds)) == multiset(replies)[None]
    ensures CountWhere(IsSleep, PollLog(replies)) == multiset(replies)[None]
  {
    PollLogRetries(replies);
    PollLogSleepCount(replies);
  }

  lemma {:induction false} PollLogRetries(replies: seq<Option<string>>)
    ensures Occurrences(PollLog(replies), Sleep(RetrySeconds)) == multiset(replies)[None]
  {
    if replies != [] {
      var init := replies[..|replies| - 1];
      var last := replies[|replies| - 1];
      PollLogRetries(init);
      assert replies == init + [last];
      assert multiset(replies) == multiset(init) + multiset([last]);
      assert multiset(PollLog(replies)) == multiset(PollLog(init)) + multiset(PollStep(last));
      assert multiset(PollStep(last))[Sleep(RetrySeconds)] == if last.None? then 1 else 0;
    }
  }

  lemma {:induction false} PollLogSleepCount(replies: seq<Option<string>>)
    ensures CountWhere(IsSleep, PollLog(replies)) == multiset(replies)[None]
  {
    if replies != [] {
      var init := replies[..|replies| - 1];
      var last := replies[|replies| - 1];
      PollLogSleepCount(init);
      assert replies == init + [last];
      assert multiset(replies) == multiset(init) + multiset([last]);
      CountWhereConcat(IsSleep, PollLog(init), PollStep(last));
      CountWhereConcat(IsSleep, [StatusQuery(CoreContainer, last)], if last.None? then [Sleep(RetrySeconds)] else []);
      assert CountWhere(IsSleep, [StatusQuery(CoreContainer, last)]) == 0 by {
        assert [StatusQuery(CoreContainer, last)][1..] == [];
      }
      if last.None? {
        assert CountWhere(IsSleep, [Sleep(RetrySeconds)]) == 1 by {
          assert [Sleep(RetrySeconds)][1..] == [];
        }
      }
    }
  }

  /** Every wait inside the poll loop directly follows a query whose reply was absent. */
  lemma {:induction false} SleepFollowsAbsentReply(replies: seq<Option<string>>)
    ensures forall i :: 0 <= i < |PollLog(replies)| && PollLog(replies)[i].Sleep? ==>
              0 < i && PollLog(replies)[i - 1] == StatusQuery(CoreContainer, None)
  {
    if replies != [] {
      var init := replies[..|replies| - 1];
      SleepFollowsAbsentReply(init);
      var p: seq<Action> := PollLog(init);
      var step: seq<Action> := PollStep(replies[|replies| - 1]);
      assert PollLog(replies) == p + step;
      forall i: int | 0 <= i < |p + step| && (p + step)[i].Sleep?
        ensures 0 < i && (p + step)[i - 1] == StatusQuery(CoreContainer, None)
      {
        if i < |p| {
          assert (p + step)[i] == p[i];
          assert (p + step)[i - 1] == p[i - 1];
        } else {
          assert (p + step)[i] == step[i - |p|];
          assert (p + step)[i - 1] == step[i - 1 - |p|];
        }
      }
    }
  }

  /** A present reply that is not "running" is followed by the next query, with no wait. */
  lemma {:induction false} PresentReplyRequeriedAtOnce(replies: seq<Option<string>>)
    ensures forall i :: (0 <= i < |PollLog(replies)| - 1 && PollLog(replies)[i].StatusQuery?
                         && PollLog(replies)[i].reply.Some?) ==> PollLog(replies)[i + 1].StatusQuery?
  {
    if replies != [] {
      var init := replies[..|replies| - 1];
      PresentReplyRequeriedAtOnce(init);
      var p: seq<Action> := PollLog(init);
      var step: seq<Action> := PollStep(replies[|replies| - 1]);
      assert PollLog(replies) == p + step;
      forall i: int | 0 <= i < |p + step| - 1 && (p + step)[i].StatusQuery? && (p + step)[i].reply.Some?
        ensures (p + step)[i + 1].StatusQuery?
      {
        if i + 1 < |p| {
          assert (p + step)[i] == p[i];
          assert (p + step)[i + 1] == p[i + 1];
        } else if i + 1 == |p| {
          assert (p + step)[i + 1] == step[0];
        } else {
          assert (p + step)[i] == step[i - |p|];
        }
      }
    }
  }

  /** After build_faction, a non-dev run whose k-th reply is the first running one. */
  lemma ReadyAfterBuild(env: Env, k: nat)
    requires k < |env.statuses| && IsRunning(env.statuses[k])
    requires forall j :: 0 <= j < k ==> !IsRunning(env.statuses[j])
    ensures AfterBuild(false, env)
            == RunResult([Sleep(WarmUpSeconds)] + PollLog(env.statuses[..k + 1])
                         + ([CreateMigration(InitialMigration), UpdateDatabase] + Provisioning(env) + Wrapup(false)),
                         Completed)
  {
    FirstRunningAt(env.statuses, k);
  }

  /** The k-th reply is the first running one. */
  predicate FirstRunningIs(statuses: seq<Option<string>>, k: nat)
  {
    k < |statuses| && IsRunning(statuses[k]) && forall j :: 0 <= j < k ==> !IsRunning(statuses[j])
  }

  /** Queries in any trace made of front steps followed by a ready non-dev tail. */
  lemma ReadyTraceQueries(t: seq<Action>, front: seq<Action>, env: Env, k: nat)
    requires FirstRunningIs(env.statuses, k)
    requires forall i :: 0 <= i < |front| ==> FrontStep(front[i])
    requires t == front + AfterBuild(false, env).trace
    ensures |Filter(IsStatusQuery, t)| == k + 1
    ensures forall j :: 0 <= j <= k ==> Filter(IsStatusQuery, t)[j] == StatusQuery(CoreContainer, env.statuses[j])
  {
    ReadyAfterBuild(env, k);
    var rest := [CreateMigration(InitialMigration), UpdateDatabase] + Provisioning(env) + Wrapup(false);
    MigrationTailKinds(env);
    QueriesIn(t, front, env.statuses[..k + 1], rest);
  }

  /** Only the poll loop queries the core, however the trace around it is made up. */
  lemma QueriesIn(t: seq<Action>, front: seq<Action>, replies: seq<Option<string>>, rest: seq<Action>)
    requires forall i :: 0 <= i < |front| ==> FrontStep(front[i])
    requires forall i :: 0 <= i < |rest| ==> ClosingStep(rest[i]) || IsMigrationStep(rest[i])
    requires t == front + ([Sleep(WarmUpSeconds)] + PollLog(replies) + rest)
    ensures |Filter(IsStatusQuery, t)| == |replies|
    ensures forall j :: 0 <= j < |replies| ==> Filter(IsStatusQuery, t)[j] == StatusQuery(CoreContainer, replies[j])
  {
    FrontHasNoWait(front);
    FilterFrame(IsStatusQuery, front, [Sleep(WarmUpSeconds)] + PollLog(replies), rest);
    ReadinessQueries(replies);
    PollLogQueries(replies);
  }

  lemma MigrationTailKinds(env: Env)
    ensures forall i :: 0 <= i < |[CreateMigration(InitialMigration), UpdateDatabase] + Provisioning(env) + Wrapup(false)| ==>
              ClosingStep(([CreateMigration(InitialMigration), UpdateDatabase] + Provisioning(env) + Wrapup(false))[i])
              || IsMigrationStep(([CreateMigration(InitialMigration), UpdateDatabase] + Provisioning(env) + Wrapup(false))[i])
  {
  }

  predicate ClosingStep(a: Action) { IsProvisioningStep(a) || a.RestartCore? || a.ReadConfig? || a.Summary? }

  lemma ClosingKinds(env: Env, dev: bool)
    ensures forall i :: 0 <= i < |Provisioning(env) + Wrapup(dev)| ==> ClosingStep((Provisioning(env) + Wrapup(dev))[i])
  {
  }

  lemma AbsentBeforeRunning(statuses: seq<Option<string>>, k: nat)
    requires k < |statuses| && statuses[k].Some?
    ensures multiset(statuses[..k + 1])[None] == multiset(statuses[..k])[None]
  {
    assert statuses[..k + 1] == statuses[..k] + [statuses[k]];
  }

  lemma FrontHasNoWait(front: seq<Action>)
    requires forall i :: 0 <= i < |front| ==> FrontStep(front[i])
    ensures forall i :: 0 <= i < |front| ==> !front[i].Sleep? && !front[i].StatusQuery? && !front[i].Pause?
  {
  }

  /** The warm-up sleep appears once in a trace that waits only in its poll section. */
  lemma WarmUpOnce(front: seq<Action>, replies: seq<Option<string>>, rest: seq<Action>)
    requires forall i :: 0 <= i < |front| ==> !front[i].Sleep?
    requires forall i :: 0 <= i < |rest| ==> !rest[i].Sleep?
    ensures Occurrences(front + ([Sleep(WarmUpSeconds)] + PollLog(replies)) + rest, Sleep(WarmUpSeconds)) == 1
  {
    PollLogKinds(replies);
    assert Sleep(WarmUpSeconds) !in PollLog(replies);
    OccurrencesFrame(front, [Sleep(WarmUpSeconds)] + PollLog(replies), rest, Sleep(WarmUpSeconds));
  }

  /** The retry sleeps of such a trace are those of its poll section, one per absent reply. */
  lemma RetrySleeps(front: seq<Action>, replies: seq<Option<string>>, rest: seq<Action>)
    requires forall i :: 0 <= i < |front| ==> !front[i].Sleep?
    requires forall i :: 0 <= i < |rest| ==> !rest[i].Sleep?
    ensures Occurrences(front + ([Sleep(WarmUpSeconds)] + PollLog(replies)) + rest, Sleep(RetrySeconds))
            == multiset(replies)[None]
  {
    OccurrencesFrame(front, [Sleep(WarmUpSeconds)] + PollLog(replies), rest, Sleep(RetrySeconds));
    PollLogSleeps(replies);
  }

  /** Sleeps in any trace made of front steps followed by a ready non-dev tail. */
  lemma ReadyTraceSleeps(t: seq<Action>, front: seq<Action>, env: Env, k: nat)
    requires FirstRunningIs(env.statuses, k)
    requires forall i :: 0 <= i < |front| ==> FrontStep(front[i])
    requires t == front + AfterBuild(false, env).trace
    ensures Occurrences(t, Sleep(WarmUpSeconds)) == 1
    ensures Occurrences(t, Sleep(RetrySeconds)) == multiset(env.statuses[..k])[None]
  {
    ReadyAfterBuild(env, k);
    var closing := Provisioning(env) + Wrapup(false);
    var rest := [CreateMigration(InitialMigration), UpdateDatabase] + closing;
    assert t == front + ([Sleep(WarmUpSeconds)] + PollLog(env.statuses[..k + 1])) + rest;
    FrontHasNoWait(front);
    ClosingKinds(env, false);
    NoneConcat(IsSleep, [CreateMigration(InitialMigration), UpdateDatabase], closing);
    WarmUpOnce(front, env.statuses[..k + 1], rest);
    RetrySleeps(front, env.statuses[..k + 1], rest);
    AbsentBeforeRunning(env.statuses, k);
  }

  /**
   * Outside dev mode, when the k-th reply is the first running one, the run
   * completes; the core is queried exactly k + 1 times, once per reply and in
   * order; the 30-second warm-up happens once and the 15-second wait once per
   * absent reply before the running one.
   */
  lemma ReadinessGate(args: Args, env: Env, k: nat)
    requires ConfigWritten(args, env) && !args.buildForDevEnvironment
    requires k < |env.statuses| && IsRunning(env.statuses[k])
    requires forall j :: 0 <= j < k ==> !IsRunning(env.statuses[j])
    ensures Run(args, env).outcome == Completed
    ensures |Filter(IsStatusQuery, Run(args, env).trace)| == k + 1
    ensures forall j :: 0 <= j <= k ==>
              Filter(IsStatusQuery, Run(args, env).trace)[j] == StatusQuery(CoreContainer, env.statuses[j])
    ensures Occurrences(Run(args, env).trace, Sleep(WarmUpSeconds)) == 1
    ensures Occurrences(Run(args, env).trace, Sleep(RetrySeconds)) == multiset(env.statuses[..k])[None]
  {
    var front, post := FrontAndRest(args, env);
    ReadyAfterBuild(env, k);
    ReadyTraceQueries(Run(args, env).trace, front, env, k);
    ReadyTraceSleeps(Run(args, env).trace, front, env, k);
  }

  /** The deployment always ends with build_faction. */
  lemma DeploymentEndsWithBuild(args: Args)
    ensures 0 < |Deployment(args)| && Deployment(args)[|Deployment(args)| - 1] == BuildFaction
  {
  }

  /** What follows build_faction starts with the operator pause in dev mode, else with the warm-up. */
  lemma AfterBuildStart(dev: bool, env: Env)
    ensures 0 < |AfterBuild(dev, env).trace|
    ensures AfterBuild(dev, env).trace[0] == (if dev then Pause else Sleep(WarmUpSeconds))
  {
  }

  /** In resolution, then deployment, then a late part starting with `first`, `first` directly follows build_faction. */
  lemma FirstAfterBuild(t: seq<Action>, pre: seq<Action>, deploy: seq<Action>, post: seq<Action>, first: Action)
    returns (w: nat)
    requires t == pre + deploy + post
    requires forall i :: 0 <= i < |pre| ==> PreConfigStep(pre[i]) || pre[i].WriteConfig?
    requires forall i :: 0 <= i < |deploy| ==> DeployStep(deploy[i])
    requires 0 < |deploy| && deploy[|deploy| - 1] == BuildFaction
    requires 0 < |post| && post[0] == first
    ensures 0 < w < |t| && t[w - 1] == BuildFaction && t[w] == first
    ensures forall i :: 0 <= i < w ==> !t[i].Sleep? && !t[i].StatusQuery? && !t[i].Pause?
  {
    w := |pre| + |deploy|;
    assert t[w - 1] == deploy[|deploy| - 1];
    assert t[w] == post[0];
    forall i | 0 <= i < w
      ensures !t[i].Sleep? && !t[i].StatusQuery? && !t[i].Pause?
    {
      if i < |pre| {
        assert t[i] == pre[i];
      } else {
        assert t[i] == deploy[i - |pre|];
      }
    }
  }

  /**
   * Outside dev mode the 30-second warm-up comes directly after build_faction,
   * and nothing before it sleeps or queries the core.
   */
  lemma WarmUpFollowsBuild(args: Args, env: Env) returns (w: nat)
    requires ConfigWritten(args, env) && !args.buildForDevEnvironment
    ensures 0 < w < |Run(args, env).trace|
    ensures Run(args, env).trace[w - 1] == BuildFaction
    ensures Run(args, env).trace[w] == Sleep(WarmUpSeconds)
    ensures forall i :: 0 <= i < w ==> !Run(args, env).trace[i].StatusQuery? && !Run(args, env).trace[i].Sleep?
  {
    var pre, deploy, post := Segments(args, env);
    DeploymentEndsWithBuild(args);
    AfterBuildStart(false, env);
    w := FirstAfterBuild(Run(args, env).trace, pre, deploy, post, Sleep(WarmUpSeconds));
  }

  /**
   * In dev mode the operator pause comes directly after build_faction, and
   * nothing before it sleeps, queries the core or pauses.
   */
  lemma PauseFollowsBuild(args: Args, env: Env) returns (w: nat)
    requires ConfigWritten(args, env) && args.buildForDevEnvironment
    ensures 0 < w < |Run(args, env).trace|
    ensures Run(args, env).trace[w - 1] == BuildFaction
    ensures Run(args, env).trace[w] == Pause
    ensures forall i :: 0 <= i < w ==>
              !Run(args, env).trace[i].StatusQuery? && !Run(args, env).trace[i].Sleep? && !Run(args, env).trace[i].Pause?
  {
    var pre, deploy, post := Segments(args, env);
    DeploymentEndsWithBuild(args);
    AfterBuildStart(true, env);
    w := FirstAfterBuild(Run(args, env).trace, pre, deploy, post, Pause);
  }

  lemma MigrationSteps(t: seq<Action>, front: seq<Action>, waited: seq<Action>, after: seq<Action>, env: Env, k: nat)
    requires forall i :: 0 <= i < |front| ==> FrontStep(front[i])
    requires k < |env.statuses|
    requires waited == front + ([Sleep(WarmUpSeconds)] + PollLog(env.statuses[..k + 1]))
    requires after == [CreateMigration(InitialMigration), UpdateDatabase] + Provisioning(env) + Wrapup(false)
    requires t == waited + after
    requires waited[|waited| - 1] == StatusQuery(CoreContainer, env.statuses[k])
    ensures 0 < |waited| && |waited| + 1 < |t| && t[|waited| - 1] == StatusQuery(CoreContainer, env.statuses[k])
    ensures t[|waited|] == CreateMigration(InitialMigration) && t[|waited| + 1] == UpdateDatabase
    ensures Occurrences(t, CreateMigration(InitialMigration)) == 1
    ensures Occurrences(t, UpdateDatabase) == 1
  {
    WaitedNotPastGate(front, env.statuses[..k + 1]);
    MigrationTailOccurrences(after, env);
    StepsAfterWait(t, waited, after, StatusQuery(CoreContainer, env.statuses[k]));
  }

  /** The two migration steps open the tail, occur there once each, and not before it. */
  lemma StepsAfterWait(t: seq<Action>, waited: seq<Action>, after: seq<Action>, q: Action)
    requires t == waited + after && 0 < |waited| && waited[|waited| - 1] == q
    requires forall i :: 0 <= i < |waited| ==> NotPastGate(waited[i])
    requires 2 <= |after| && after[0] == CreateMigration(InitialMigration) && after[1] == UpdateDatabase
    requires multiset(after)[CreateMigration(InitialMigration)] == 1 && multiset(after)[UpdateDatabase] == 1
    ensures 0 < |waited| && |waited| + 1 < |t| && t[|waited| - 1] == q
    ensures t[|waited|] == CreateMigration(InitialMigration) && t[|waited| + 1] == UpdateDatabase
    ensures Occurrences(t, CreateMigration(InitialMigration)) == 1
    ensures Occurrences(t, UpdateDatabase) == 1
  {
    assert CreateMigration(InitialMigration) !in waited && UpdateDatabase !in waited;
    OnlyInSuffix(waited, after, CreateMigration(InitialMigration));
    OnlyInSuffix(waited, after, UpdateDatabase);
  }

  /** A ready non-dev trace splits into the part up to the answering query and the migration onwards. */
  lemma ReadySplit(t: seq<Action>, front: seq<Action>, env: Env, k: nat) returns (waited: seq<Action>, after: seq<Action>)
    requires FirstRunningIs(env.statuses, k)
    requires t == front + AfterBuild(false, env).trace
    ensures waited == front + ([Sleep(WarmUpSeconds)] + PollLog(env.statuses[..k + 1]))
    ensures after == [CreateMigration(InitialMigration), UpdateDatabase] + Provisioning(env) + Wrapup(false)
    ensures t == waited + after
    ensures waited[|waited| - 1] == StatusQuery(CoreContainer, env.statuses[k])
  {
    ReadyAfterBuild(env, k);
    var prefix := env.statuses[..k + 1];
    var readiness := [Sleep(WarmUpSeconds)] + PollLog(prefix);
    after := [CreateMigration(InitialMigration), UpdateDatabase] + Provisioning(env) + Wrapup(false);
    waited := front + readiness;
    Assoc(front, readiness, after);
    PollLogLast(prefix);
  }

  /** The poll loop's log ends with the query that got the last, present reply. */
  lemma PollLogLast(replies: seq<Option<string>>)
    requires 0 < |replies| && replies[|replies| - 1].Some?
    ensures 0 < |PollLog(replies)|
    ensures PollLog(replies)[|PollLog(replies)| - 1] == StatusQuery(CoreContainer, replies[|replies| - 1])
  {
    assert PollStep(replies[|replies| - 1]) == [StatusQuery(CoreContainer, replies[|replies| - 1])];
  }

  lemma MigrationTailOccurrences(after: seq<Action>, env: Env)
    requires after == [CreateMigration(InitialMigration), UpdateDatabase] + Provisioning(env) + Wrapup(false)
    ensures 2 <= |after| && after[0] == CreateMigration(InitialMigration) && after[1] == UpdateDatabase
    ensures multiset(after)[CreateMigration(InitialMigration)] == 1 && multiset(after)[UpdateDatabase] == 1
  {
    ClosingKinds(env, false);
    Assoc([CreateMigration(InitialMigration), UpdateDatabase], Provisioning(env), Wrapup(false));
    OnceInTail(after, Provisioning(env) + Wrapup(false), CreateMigration(InitialMigration));
    OnceInTail(after, Provisioning(env) + Wrapup(false), UpdateDatabase);
  }

  lemma OnceInTail(after: seq<Action>, closing: seq<Action>, a: Action)
    requires after == [CreateMigration(InitialMigration), UpdateDatabase] + closing
    requires forall i :: 0 <= i < |closing| ==> ClosingStep(closing[i])
    requires a == CreateMigration(InitialMigration) || a == UpdateDatabase
    ensures 2 <= |after| && after[0] == CreateMigration(InitialMigration) && after[1] == UpdateDatabase
    ensures multiset(after)[a] == 1
  {
    assert a !in closing;
    assert multiset(after) == multiset([CreateMigration(InitialMigration), UpdateDatabase]) + multiset(closing);
  }

  lemma OnlyInSuffix(s: seq<Action>, u: seq<Action>, a: Action)
    requires a !in s
    ensures Occurrences(s + u, a) == multiset(u)[a]
  {
    assert multiset(s + u) == multiset(s) + multiset(u);
  }

  /**
   * Outside dev mode the initial migration is created right after the query
   * that saw the core running, and applied right after that; each happens once.
   */
  lemma MigrationAfterReady(args: Args, env: Env, k: nat) returns (m: nat)
    requires ConfigWritten(args, env) && !args.buildForDevEnvironment
    requires k < |env.statuses| && IsRunning(env.statuses[k])
    requires forall j :: 0 <= j < k ==> !IsRunning(env.statuses[j])
    ensures 0 < m && m + 1 < |Run(args, env).trace|
    ensures Run(args, env).trace[m - 1] == StatusQuery(CoreContainer, env.statuses[k])
    ensures Run(args, env).trace[m] == CreateMigration(InitialMigration)
    ensures Run(args, env).trace[m + 1] == UpdateDatabase
    ensures Occurrences(Run(args, env).trace, CreateMigration(InitialMigration)) == 1
    ensures Occurrences(Run(args, env).trace, UpdateDatabase) == 1
  {
    var front, post := FrontAndRest(args, env);
    var waited, after := ReadySplit(Run(args, env).trace, front, env, k);
    m := |waited|;
    MigrationSteps(Run(args, env).trace, front, waited, after, env, k);
  }

  /** An action of the run from the migration on. */
  predicate PastGate(a: Action) { IsMigrationStep(a) || IsProvisioningStep(a) || a.RestartCore? || a.Summary? }
  predicate NotPastGate(a: Action) { !PastGate(a) }

  lemma FrontNotPastGate(front: seq<Action>)
    requires forall i :: 0 <= i < |front| ==> FrontStep(front[i])
    ensures forall i :: 0 <= i < |front| ==> NotPastGate(front[i]) && NotAutomatedOnly(front[i])
  {
  }

  lemma ReadinessNotPastGate(replies: seq<Option<string>>)
    ensures forall i :: 0 <= i < |[Sleep(WarmUpSeconds)] + PollLog(replies)| ==>
              NotPastGate(([Sleep(WarmUpSeconds)] + PollLog(replies))[i])
  {
    PollLogKinds(replies);
    AllConcat(NotPastGate, [Sleep(WarmUpSeconds)], PollLog(replies));
  }

  lemma ReadinessQueries(replies: seq<Option<string>>)
    ensures Filter(IsStatusQuery, [Sleep(WarmUpSeconds)] + PollLog(replies)) == Filter(IsStatusQuery, PollLog(replies))
  {
    FilterConcat(IsStatusQuery, [Sleep(WarmUpSeconds)], PollLog(replies));
  }

  /** Nothing past the readiness gate appears in a trace that ends in the poll loop. */
  lemma BlockedTraceFacts(t: seq<Action>, front: seq<Action>, replies: seq<Option<string>>)
    requires forall i :: 0 <= i < |front| ==> FrontStep(front[i])
    requires t == front + ([Sleep(WarmUpSeconds)] + PollLog(replies))
    ensures |Filter(IsStatusQuery, t)| == |replies|
    ensures forall i :: 0 <= i < |t| ==> !PastGate(t[i])
  {
    FrontHasNoWait(front);
    FilterConcat(IsStatusQuery, front, [Sleep(WarmUpSeconds)] + PollLog(replies));
    FilterNone(IsStatusQuery, front);
    ReadinessQueries(replies);
    PollLogQueries(replies);
    WaitedNotPastGate(front, replies);
  }

  lemma WaitedNotPastGate(front: seq<Action>, replies: seq<Option<string>>)
    requires forall i :: 0 <= i < |front| ==> FrontStep(front[i])
    ensures forall i :: 0 <= i < |front + ([Sleep(WarmUpSeconds)] + PollLog(replies))| ==>
              NotPastGate((front + ([Sleep(WarmUpSeconds)] + PollLog(replies)))[i])
  {
    FrontNotPastGate(front);
    ReadinessNotPastGate(replies);
    AllConcat(NotPastGate, front, [Sleep(WarmUpSeconds)] + PollLog(replies));
  }

  /**
   * Outside dev mode, if no reply ever reads "running" the run is still waiting
   * on the core: every reply was asked for, and nothing from the migration on
   * has happened.
   */
  lemma NoMigrationUntilReady(args: Args, env: Env)
    requires ConfigWritten(args, env) && !args.buildForDevEnvironment
    requires forall j :: 0 <= j < |env.statuses| ==> !IsRunning(env.statuses[j])
    ensures Run(args, env).outcome == Blocked(CoreReadiness)
    ensures |Filter(IsStatusQuery, Run(args, env).trace)| == |env.statuses|
    ensures forall i :: 0 <= i < |Run(args, env).trace| ==> !PastGate(Run(args, env).trace[i])
  {
    var front, post := FrontAndRest(args, env);
    BlockedTraceFacts(Run(args, env).trace, front, env.statuses);
  }

  /** An action that only the automated (non-dev) path performs. */
  predicate AutomatedOnly(a: Action) { a.Sleep? || a.StatusQuery? || IsMigrationStep(a) || a.RestartCore? }
  predicate NotAutomatedOnly(a: Action) { !AutomatedOnly(a) }

  lemma DevTailKinds(env: Env)
    ensures forall i :: 0 <= i < |[Pause] + Provisioning(env) + Wrapup(true)| ==>
              NotAutomatedOnly(([Pause] + Provisioning(env) + Wrapup(true))[i])
  {
  }

  lemma DevTailPause(env: Env)
    ensures multiset([Pause] + Provisioning(env) + Wrapup(true))[Pause] == 1
  {
    ClosingKinds(env, true);
    assert Pause !in Provisioning(env) + Wrapup(true);
    assert [Pause] + Provisioning(env) + Wrapup(true) == [Pause] + (Provisioning(env) + Wrapup(true));
    assert multiset([Pause] + (Provisioning(env) + Wrapup(true)))
        == multiset([Pause]) + multiset(Provisioning(env) + Wrapup(true));
  }

  /** No waiting and no migration in a trace made of front steps followed by the dev tail. */
  lemma DevTraceFacts(t: seq<Action>, front: seq<Action>, env: Env)
    requires forall i :: 0 <= i < |front| ==> FrontStep(front[i])
    requires t == front + AfterBuild(true, env).trace
    ensures Occurrences(t, Pause) == 1
    ensures forall i :: 0 <= i < |t| ==> !AutomatedOnly(t[i])
  {
    var tail := [Pause] + Provisioning(env) + Wrapup(true);
    DevNotAutomated(front, tail, env);
    DevPauseOnce(front, tail, env);
  }

  lemma DevNotAutomated(front: seq<Action>, tail: seq<Action>, env: Env)
    requires forall i :: 0 <= i < |front| ==> FrontStep(front[i])
    requires tail == [Pause] + Provisioning(env) + Wrapup(true)
    ensures forall i :: 0 <= i < |front + tail| ==> NotAutomatedOnly((front + tail)[i])
  {
    FrontNotPastGate(front);
    DevTailKinds(env);
    AllConcat(NotAutomatedOnly, front, tail);
  }

  lemma DevPauseOnce(front: seq<Action>, tail: seq<Action>, env: Env)
    requires forall i :: 0 <= i < |front| ==> FrontStep(front[i])
    requires tail == [Pause] + Provisioning(env) + Wrapup(true)
    ensures Occurrences(front + tail, Pause) == 1
  {
    FrontHasNoWait(front);
    DevTailPause(env);
    OnlyInSuffix(front, tail, Pause);
  }

  /**
   * In dev mode the run pauses once for the operator and never sleeps, polls,
   * migrates or restarts the core; it then completes.
   */
  lemma DevModeSkipsReadiness(args: Args, env: Env)
    requires ConfigWritten(args, env) && args.buildForDevEnvironment
    ensures Run(args, env).outcome == Completed
    ensures Occurrences(Run(args, env).trace, Pause) == 1
    ensures forall i :: 0 <= i < |Run(args, env).trace| ==> !AutomatedOnly(Run(args, env).trace[i])
  {
    var front, post := FrontAndRest(args, env);
    DevTraceFacts(Run(args, env).trace, front, env);
  }

  // ------------------------------------------------------- provisioning

  /** A completed tail: one step before the closing part that opens provisioning. */
  lemma CompletedTail(dev: bool, env: Env) returns (head: seq<Action>)
    requires AfterBuild(dev, env).outcome == Completed
    ensures AfterBuild(dev, env).trace == head + (Provisioning(env) + Wrapup(dev))
    ensures 0 < |head| && head[|head| - 1] == (if dev then Pause else UpdateDatabase)
    ensures forall i :: 0 <= i < |head| ==> !IsProvisioningStep(head[i]) && !IsRestart(head[i])
  {
    if dev {
      head := [Pause];
    } else {
      ReadinessKinds(env.statuses);
      head := Readiness(env.statuses) + [CreateMigration(InitialMigration), UpdateDatabase];
    }
  }

  /** A front and a head without provisioning steps leave the chain as the run's only provisioning. */
  lemma ProvisioningOnlyInChain(t: seq<Action>, front: seq<Action>, head: seq<Action>, env: Env, dev: bool)
    requires t == front + (head + (Provisioning(env) + Wrapup(dev)))
    requires forall i :: 0 <= i < |front| ==> FrontStep(front[i])
    requires forall i :: 0 <= i < |head| ==> !IsProvisioningStep(head[i])
    ensures Filter(IsProvisioningStep, t) == Provisioning(env)
  {
    Assoc(front, head, Provisioning(env) + Wrapup(dev));
    NoneConcat(IsProvisioningStep, front, head);
    FilterFrame(IsProvisioningStep, front + head, Provisioning(env), Wrapup(dev));
    FilterAll(IsProvisioningStep, Provisioning(env));
  }

  /** The same frame for the restart: only the wrap-up outside dev mode restarts the core. */
  lemma RestartOnlyInWrapup(t: seq<Action>, front: seq<Action>, head: seq<Action>, env: Env, dev: bool)
    requires t == front + (head + (Provisioning(env) + Wrapup(dev)))
    requires forall i :: 0 <= i < |front| ==> FrontStep(front[i])
    requires forall i :: 0 <= i < |head| ==> !IsRestart(head[i])
    ensures Filter(IsRestart, t) == (if dev then [] else [RestartCore(CoreContainer)])
  {
    var closing := Provisioning(env) + Wrapup(dev);
    Assoc(front, head, closing);
    NoneConcat(IsRestart, front, head);
    assert t == (front + head) + (closing + []);
    FilterFrame(IsRestart, front + head, closing, []);
    ClosingRestarts(env, dev);
  }

  lemma ClosingRestarts(env: Env, dev: bool)
    ensures Filter(IsRestart, Provisioning(env) + Wrapup(dev)) == (if dev then [] else [RestartCore(CoreContainer)])
  {
    FilterConcat(IsRestart, Provisioning(env), Wrapup(dev));
    FilterNone(IsRestart, Provisioning(env));
    if dev {
      FilterNone(IsRestart, Wrapup(dev));
    } else {
      assert Wrapup(dev) == [RestartCore(CoreContainer)] + [ReadConfig, Summary];
      FilterConcat(IsRestart, [RestartCore(CoreContainer)], [ReadConfig, Summary]);
      FilterAll(IsRestart, [RestartCore(CoreContainer)]);
      FilterNone(IsRestart, [ReadConfig, Summary]);
    }
  }

  /** Where the closing part starts in a trace made of a front and a completed tail. */
  lemma ClosingAt(t: seq<Action>, front: seq<Action>, head: seq<Action>, closing: seq<Action>, last: Action) returns (p: nat)
    requires t == front + (head + closing) && 0 < |head| && head[|head| - 1] == last
    ensures 0 < p <= |t| && t[p..] == closing && t[p - 1] == last
  {
    p := |front| + |head|;
    assert t == (front + head) + closing;
  }

  /**
   * Every completed run ends with the provisioning chain (roles, system user,
   * admin user, the system user's id, a transport key minted for and owned by
   * that id, the direct transport carrying that key) and the wrap-up; the chain
   * starts right after the database update, or right after the pause in dev mode,
   * and no provisioning step happens anywhere else.
   */
  lemma CompletedRunEnding(args: Args, env: Env) returns (p: nat)
    requires Run(args, env).outcome == Completed
    ensures ConfigWritten(args, env)
    ensures 0 < p <= |Run(args, env).trace|
    ensures Run(args, env).trace[p..] == Provisioning(env) + Wrapup(args.buildForDevEnvironment)
    ensures Run(args, env).trace[p - 1] == (if args.buildForDevEnvironment then Pause else UpdateDatabase)
    ensures Filter(IsProvisioningStep, Run(args, env).trace) == Provisioning(env)
  {
    var dev := args.buildForDevEnvironment;
    var front, post := FrontAndRest(args, env);
    var head := CompletedTail(dev, env);
    p := ClosingAt(Run(args, env).trace, front, head, Provisioning(env) + Wrapup(dev),
                   if dev then Pause else UpdateDatabase);
    ProvisioningOnlyInChain(Run(args, env).trace, front, head, env, dev);
  }

  /** The transport key is minted for the system account and handed to the direct transport unchanged. */
  lemma TransportKeyFlow(env: Env)
    ensures |Provisioning(env)| == 6
    ensures Provisioning(env)[4].NewApiKey?
    ensures CountWhere(IsProvisioningStep, Provisioning(env)) == 6
    ensures forall i :: 0 <= i < 6 && Provisioning(env)[i].NewApiKey? ==>
              i == 4 && Provisioning(env)[i].keyType == TransportKeyType
              && Provisioning(env)[i - 1] == GetUserId(SystemAccount, Provisioning(env)[i].userId)
              && Provisioning(env)[i].ownerId == Provisioning(env)[i].userId
              && Provisioning(env)[i + 1] == CreateDirectTransport(Provisioning(env)[i].key)
  {
    CountWhereAll(IsProvisioningStep, Provisioning(env));
  }

  /**
   * A completed run restarts the core exactly when it is not a dev-environment
   * build, and then exactly once; its last two steps read the configuration
   * back and report it.
   */
  lemma RestartOnlyOutsideDev(args: Args, env: Env)
    requires Run(args, env).outcome == Completed
    ensures RestartCore(CoreContainer) in Run(args, env).trace <==> !args.buildForDevEnvironment
    ensures |Run(args, env).trace| >= 2
    ensures Run(args, env).trace[|Run(args, env).trace| - 2] == ReadConfig
    ensures Run(args, env).trace[|Run(args, env).trace| - 1] == Summary
    ensures Filter(IsRestart, Run(args, env).trace)
            == (if args.buildForDevEnvironment then [] else [RestartCore(CoreContainer)])
  {
    var front, post := FrontAndRest(args, env);
    var head := CompletedTail(args.buildForDevEnvironment, env);
    CompletedTraceRestarts(Run(args, env).trace, front, head, env, args.buildForDevEnvironment);
  }

  lemma CompletedTraceRestarts(t: seq<Action>, front: seq<Action>, head: seq<Action>, env: Env, dev: bool)
    requires t == front + (head + (Provisioning(env) + Wrapup(dev))) && 0 < |head|
    requires forall i :: 0 <= i < |front| ==> FrontStep(front[i])
    requires forall i :: 0 <= i < |head| ==> !IsRestart(head[i])
    ensures RestartCore(CoreContainer) in t <==> !dev
    ensures |t| >= 2 && t[|t| - 2] == ReadConfig && t[|t| - 1] == Summary
    ensures Filter(IsRestart, t) == (if dev then [] else [RestartCore(CoreContainer)])
  {
    var p := ClosingAt(t, front, head, Provisioning(env) + Wrapup(dev), head[|head| - 1]);
    ClosingTail(t, p, env, dev);
    RestartOnlyInWrapup(t, front, head, env, dev);
    if dev {
      FilterEmptyNone(IsRestart, t);
      NotInWhenNone(t);
    } else {
      assert t[p + 6] == RestartCore(CoreContainer);
    }
  }

  lemma ClosingTail(t: seq<Action>, p: nat, env: Env, dev: bool)
    requires 0 < p <= |t| && t[p..] == Provisioning(env) + Wrapup(dev)
    ensures |t| >= 2 && t[|t| - 2] == ReadConfig && t[|t| - 1] == Summary
    ensures !dev ==> p + 6 < |t| && t[p + 6] == RestartCore(CoreContainer)
  {
    var closing := Provisioning(env) + Wrapup(dev);
    assert t[|t| - 2] == closing[|closing| - 2] && t[|t| - 1] == closing[|closing| - 1];
    if !dev {
      assert t[p + 6] == closing[6];
    }
  }

  lemma NotInWhenNone(t: seq<Action>)
    requires forall i :: 0 <= i < |t| ==> !IsRestart(t[i])
    ensures RestartCore(CoreContainer) !in t
  {
  }

  // ------------------------------------------------------------- scenario

  /**
   * A stable hub deployment (the parser's defaults) with a supplied https
   * address: the core reports absent, then "created", then "Running" (the
   * comparison ignores case). The run completes after three queries and one
   * 15-second wait, pulls the "latest" images and restarts the core.
   */
  lemma HubScenario(args: Args, env: Env)
    requires args.externalAddress == Some("https://example.test") && args.release == DefaultRelease
    requires !args.buildFromSource && !args.buildForDevEnvironment
    requires env.statuses == [None, Some("created"), Some("Running")]
    ensures Run(args, env).outcome == Completed
    ensures |Filter(IsStatusQuery, Run(args, env).trace)| == 3
    ensures Occurrences(Run(args, env).trace, Sleep(RetrySeconds)) == 1
    ensures WriteHubCompose("latest") in Run(args, env).trace
    ensures RestartCore(CoreContainer) in Run(args, env).trace
  {
    HubScenarioPolls(args, env);
    HubScenarioEffects(args, env);
  }

  lemma HubScenarioPolls(args: Args, env: Env)
    requires ConfigWritten(args, env) && !args.buildForDevEnvironment
    requires env.statuses == [None, Some("created"), Some("Running")]
    ensures Run(args, env).outcome == Completed
    ensures |Filter(IsStatusQuery, Run(args, env).trace)| == 3
    ensures Occurrences(Run(args, env).trace, Sleep(RetrySeconds)) == 1
  {
    ScenarioReplies(env.statuses);
    ReadinessGate(args, env, 2);
  }

  lemma HubScenarioEffects(args: Args, env: Env)
    requires ConfigWritten(args, env) && Run(args, env).outcome == Completed
    requires args.release == DefaultRelease && !args.buildFromSource && !args.buildForDevEnvironment
    ensures WriteHubCompose("latest") in Run(args, env).trace
    ensures RestartCore(CoreContainer) in Run(args, env).trace
  {
    assert ChannelOf(args.release).dockerTag == "latest";
    ExactlyOneComposeWriter(args, env);
    RestartOnlyOutsideDev(args, env);
  }

  /** Of the replies absent, "created", "Running", only the last counts as running, and one is absent before it. */
  lemma ScenarioReplies(statuses: seq<Option<string>>)
    requires statuses == [None, Some("created"), Some("Running")]
    ensures FirstRunningIs(statuses, 2)
    ensures multiset(statuses[..2])[None] == 1
  {
    assert Lower("created") != "running" by {
      assert Lower("created")[0] == 'c';
    }
    assert Lower("Running") == "running";
    assert statuses[..2] == [None, Some("created")];
    assert multiset([None, Some("created")]) == multiset{None, Some("created")};
  }
}
