/**
 * Reference semantics of `Setup.take_action`: the trace of effects one run
 * produces and how the run ends, as a function of the parsed arguments and of
 * what the outside world answers (the environment oracles).
 */
module Bootstrap {
  import opened Wrappers
  import opened Trace
  import opened Arguments

  /**
   * Everything the run learns from outside: the NIC map returned by
   * get_ip_addresses, the successive answers typed at the NIC prompt, the
   * successive replies of get_container_status('faction_core_1') (None for a
   * falsy reply, otherwise the reply's status string), the system account id
   * returned by get_user_id and the API key returned by new_api_key.
   */
  datatype Env = Env(
    ipOptions: map<string, string>,
    answers: seq<string>,
    statuses: seq<Option<string>>,
    systemId: int,
    apiKey: string)

  /** The two places where the run waits on the outside world without bound. */
  datatype Gate = NicPrompt | CoreReadiness

  /**
   * How a run ends: it completes, it stops at error_out, or the oracle for one of
   * the two unbounded waits ran out while the command would still be waiting.
   */
  datatype Outcome = Completed | Failed(message: string) | Blocked(gate: Gate)

  datatype RunResult = RunResult(trace: seq<Action>, outcome: Outcome)

  const BadAddressMessage: string := "Setup failed. --external-address argument must begin with http:// or https://"
  const CoreContainer: string := "faction_core_1"
  const WarmUpSeconds: nat := 30
  const RetrySeconds: nat := 15
  const InitialMigration: string := "Initial"
  const SystemAccount: string := "system"
  const TransportKeyType: string := "Transport"
  const ModulesRepo: string := "FactionC2/Modules-Dotnet"
  const AgentRepo: string := "maraudershell/Marauder"

  // ---------------------------------------------------------------- address

  /** Index of the first answer that is a known NIC label, if any. */
  function FirstValid(options: map<string, string>, answers: seq<string>): (r: Option<nat>)
    ensures r.Some? ==> r.value < |answers| && answers[r.value] in options
    ensures r.Some? ==> forall j :: 0 <= j < r.value ==> answers[j] !in options
    ensures r.None? ==> forall j :: 0 <= j < |answers| ==> answers[j] !in options
  {
    if answers == [] then None
    else if answers[0] in options then Some(0)
    else match FirstValid(options, answers[1..])
         case None => None
         case Some(k) => Some(k + 1)
  }

  /** An answer that is a known label, with every earlier answer unknown, is the first valid one. */
  lemma FirstValidAt(options: map<string, string>, answers: seq<string>, k: nat)
    requires k < |answers| && answers[k] in options
    requires forall j :: 0 <= j < k ==> answers[j] !in options
    ensures FirstValid(options, answers) == Some(k)
  {
  }

  /** One Prompt action per answer read. */
  function Prompts(answers: seq<string>): seq<Action>
  {
    seq(|answers|, i requires 0 <= i < |answers| => Prompt(answers[i]))
  }

  datatype Resolution =
    | Resolved(log: seq<Action>, address: string)
    | Rejected(message: string)
    | Unanswered(log: seq<Action>)

  /**
   * setup.py:104-116: a supplied address is only prefix-checked; otherwise the NICs
   * are enumerated once and the user is prompted until an answer is a known label.
   */
  function Resolve(supplied: Option<string>, env: Env): Resolution
  {
    if AddressSupplied(supplied) then
      if HasWebScheme(supplied.value) then Resolved([], supplied.value) else Rejected(BadAddressMessage)
    else
      match FirstValid(env.ipOptions, env.answers)
      case None => Unanswered([GetIpAddresses(env.ipOptions)] + Prompts(env.answers))
      case Some(k) =>
        Resolved([GetIpAddresses(env.ipOptions)] + Prompts(env.answers[..k + 1]),
                 "https://" + env.ipOptions[env.answers[k]])
  }

  // ------------------------------------------------------------- deployment

  function Downloads(factionPath: string, components: seq<string>): seq<Action>
  {
    seq(|components|, i requires 0 <= i < |components| =>
      Download("FactionC2/" + components[i], factionPath + "/source/" + components[i]))
  }

  /** One more component downloads one more repository, after the others. */
  lemma DownloadsStep(factionPath: string, components: seq<string>, i: nat)
    requires i < |components|
    ensures Downloads(factionPath, components[..i + 1])
            == Downloads(factionPath, components[..i])
               + [Download("FactionC2/" + components[i], factionPath + "/source/" + components[i])]
  {
  }

  /** setup.py:147-156: source build wins over dev, dev over the hub images. */
  function ComposeWriter(args: Args): Action
  {
    if args.buildFromSource then WriteBuildCompose
    else if args.buildForDevEnvironment then WriteDevCompose
    else WriteHubCompose(ChannelOf(args.release).dockerTag)
  }

  function AuxiliaryClones(args: Args): seq<Action>
  {
    var branch := ChannelOf(args.release).githubBranch;
    [Clone(branch, ModulesRepo, args.factionPath + "/modules/dotnet"),
     Clone(branch, AgentRepo, args.factionPath + "/agents/Marauder")]
  }

  /** setup.py:147-161: fetch sources if building, write one compose file, clone, build. */
  function Deployment(args: Args): seq<Action>
  {
    (if args.buildFromSource then Downloads(args.factionPath, args.components) else [])
    + [ComposeWriter(args)] + AuxiliaryClones(args) + [BuildFaction]
  }

  // -------------------------------------------------------------- readiness

  function LowerChar(c: char): char
  {
    if 'A' <= c <= 'Z' then (c as int + 32) as char else c
  }

  function Lower(s: string): string
  {
    seq(|s|, i requires 0 <= i < |s| => LowerChar(s[i]))
  }

  /** The reply is present and its status, lower-cased, is "running". */
  predicate IsRunning(reply: Option<string>)
  {
    reply.Some? && Lower(reply.value) == "running"
  }

  /** Index of the first poll reply that reports the core as running, if any. */
  function FirstRunning(statuses: seq<Option<string>>): (r: Option<nat>)
    ensures r.Some? ==> r.value < |statuses| && IsRunning(statuses[r.value])
    ensures r.Some? ==> forall j :: 0 <= j < r.value ==> !IsRunning(statuses[j])
    ensures r.None? ==> forall j :: 0 <= j < |statuses| ==> !IsRunning(statuses[j])
  {
    if statuses == [] then None
    else if IsRunning(statuses[0]) then Some(0)
    else match FirstRunning(statuses[1..])
         case None => None
         case Some(k) => Some(k + 1)
  }

  /** A running reply, with no earlier one running, is the first running one. */
  lemma FirstRunningAt(statuses: seq<Option<string>>, k: nat)
    requires k < |statuses| && IsRunning(statuses[k])
    requires forall j :: 0 <= j < k ==> !IsRunning(statuses[j])
    ensures FirstRunning(statuses) == Some(k)
  {
  }

  /** One pass of the poll loop: query, and wait 15 seconds only if the reply was absent. */
  function PollStep(reply: Option<string>): seq<Action>
  {
    [StatusQuery(CoreContainer, reply)] + (if reply.None? then [Sleep(RetrySeconds)] else [])
  }

  /** The effects of the poll loop over the given replies, in order. */
  function PollLog(replies: seq<Option<string>>): seq<Action>
  {
    if replies == [] then [] else PollLog(replies[..|replies| - 1]) + PollStep(replies[|replies| - 1])
  }

  // ----------------------------------------------------------- provisioning

  /** setup.py:198-205: roles, system user, admin user, system id, transport key, transport. */
  function Provisioning(env: Env): seq<Action>
  {
    [CreateRoles, CreateSystemUser, CreateAdminUser,
     GetUserId(SystemAccount, env.systemId),
     NewApiKey(TransportKeyType, env.systemId, env.systemId, env.apiKey),
     CreateDirectTransport(env.apiKey)]
  }

  /** setup.py:207-212: restart the core outside dev mode, then read the config and report. */
  function Wrapup(dev: bool): seq<Action>
  {
    (if !dev then [RestartCore(CoreContainer)] else []) + [ReadConfig, Summary]
  }

  // -------------------------------------------------------------------- run

  /** setup.py:174-186 as a whole: the warm-up sleep, then the polls up to the first running reply. */
  function Readiness(statuses: seq<Option<string>>): seq<Action>
  {
    match FirstRunning(statuses)
    case None => [Sleep(WarmUpSeconds)] + PollLog(statuses)
    case Some(k) => [Sleep(WarmUpSeconds)] + PollLog(statuses[..k + 1])
  }

  /** setup.py:163-212: everything after build_faction(). */
  function AfterBuild(dev: bool, env: Env): RunResult
  {
    if dev then
      RunResult([Pause] + Provisioning(env) + Wrapup(true), Completed)
    else if FirstRunning(env.statuses).None? then
      RunResult(Readiness(env.statuses), Blocked(CoreReadiness))
    else
      RunResult(Readiness(env.statuses) + [CreateMigration(InitialMigration), UpdateDatabase]
                + Provisioning(env) + Wrapup(false), Completed)
  }

  /** The whole of take_action. */
  function Run(args: Args, env: Env): RunResult
  {
    match Resolve(args.externalAddress, env)
    case Rejected(msg) => RunResult([Fatal(msg)], Failed(msg))
    case Unanswered(log) => RunResult(log, Blocked(NicPrompt))
    case Resolved(log, address) =>
      var rest := AfterBuild(args.buildForDevEnvironment, env);
      RunResult(log + [WriteConfig(address)] + Deployment(args) + rest.trace, rest.outcome)
  }
}
