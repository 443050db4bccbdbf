# Faction setup bootstrap, modelled in Dafny

`faction setup` (the `Setup` command of the Faction C2 command-line tool) runs a
fixed sequence of effects:

1. It settles the platform's external address. A supplied address must start
   with `http://` or `https://`; otherwise the run stops through `error_out`.
   Without an address, the host's NICs are enumerated once and the operator is
   prompted until they type a known NIC label. The address becomes `https://` followed by
   that NIC's IP, and it is written back into the parsed arguments.
2. It writes the configuration. It then picks the release channel: docker tag
   `latest`/`dev` and GitHub branch `master`/`development`.
3. It deploys:
   - a source build downloads one repository per component and writes the
     build compose file;
   - a dev-environment build writes the dev compose file;
   - otherwise it writes the hub compose file for the channel's tag.
4. It clones the .NET modules and the Marauder agent, then calls `build_faction`.
5. Outside dev mode it waits 30 seconds and polls the `faction_core_1` container.
   An absent reply costs 15 more seconds. A present reply whose status is not
   `running` (ignoring case) is queried again at once. Once the core runs, it
   creates and applies the `Initial` database migration. In dev mode it pauses
   for the operator instead.
6. It creates:
   - the roles, the system user and the admin user;
   - a `Transport` API key minted for and owned by the system account's id;
   - a direct transport carrying that key.
7. Outside dev mode it restarts the core. Finally it reads the configuration
   back and reports it.

The model records the effects of one run as a trace of `Action`s (module
`Trace`): one action per call into a collaborator. Terminal output (`print_output`,
`print`, the debug log line) has no action, except the closing summary at
setup.py:212, which is `Summary`. The two `input` calls are `Prompt` (the NIC
prompt) and `Pause` (the dev-mode pause). `get_container` is folded into
`RestartCore`. What the outside world answers is an explicit oracle `Env`:
- the NIC map;
- the answers typed at the prompt;
- the container-status replies;
- the system user's id;
- the minted key.

The two unbounded waits (the NIC prompt and the readiness poll) end in the
outcome `Blocked(gate)` when their oracle runs out while the command would still
be waiting.

- `Arguments`: the parser's choices and defaults that the sequence depends on,
  and the release-channel mapping.
- `Bootstrap`: the reference semantics. `Run(args, env)` gives the trace and the
  outcome (`Completed`, `Failed(message)` or `Blocked(gate)`), built from one
  function per phase.
- `SetupCommand`: the command in its own imperative form. The `Setup` class
  holds the trace. `ParsedArgs` holds the six parsed arguments the trace
  depends on; `externalAddress` is its one mutable field, the only one that
  `take_action` reassigns. `PromptForNic` and `WaitForCore` are the two `while` loops.
  `Setup.TakeAction` is proved to append exactly `Run(..).trace` and to return
  exactly `Run(..).outcome`.
- `BootstrapProperties`: the properties of the run above, proved about `Run`.

## Model

| member | source | states |
|---|---|---|
| BootstrapProperties.ReleaseDefault | factioncli/commands/setup.py:38-41 | `--release` has exactly two choices and its default, stable, is one of them and selects the latest images and the master branch |
| BootstrapProperties.ReleaseChannels | factioncli/commands/setup.py:140-145 | stable maps to latest/master, development to dev/development, and every release maps to one of these two; the tag is dev exactly for development |
| Bootstrap.FirstValid | factioncli/commands/setup.py:109-115 | the index found is the first answer that is a key of the NIC map: it is in range and in the map, and no earlier answer is; None means no answer is in the map |
| Bootstrap.FirstValidAt | factioncli/commands/setup.py:109-115 | an answer in the map with none before it is exactly the one FirstValid finds |
| Bootstrap.FirstRunning | factioncli/commands/setup.py:177-183 | the index found is the first reply that is present and reads "running" ignoring case; None means no reply does |
| Bootstrap.FirstRunningAt | factioncli/commands/setup.py:177-183 | a running reply with no running one before it is exactly the one FirstRunning finds |
| Bootstrap.DownloadsStep | factioncli/commands/setup.py:148-151 | one more component appends exactly one download, from FactionC2/<component> into <path>/source/<component> |
| SetupCommand.ParsedArgs.constructor | factioncli/commands/setup.py:21-59 | the parsed arguments hold exactly the given values |
| SetupCommand.PromptForNic | factioncli/commands/setup.py:109-115 | a selection is returned iff some answer is a NIC label, and it is then a key of the map; the selection is the first such answer and the log holds one prompt per answer read up to it, or one per answer when none matches |
| SetupCommand.WaitForCore | factioncli/commands/setup.py:174-186 | ready iff some reply reports the core running; the log is the 30-second warm-up followed by one query per reply up to the first running one (all of them when none runs), with a 15-second wait after every absent reply |
| SetupCommand.Setup.constructor | factioncli/commands/setup.py:16-19 | a new command has performed no effect |
| SetupCommand.Setup.ResolveAddress | factioncli/commands/setup.py:104-116 | a malformed supplied address appends the fatal message and stops with Failed; an unanswered prompt stops with Blocked(NicPrompt) after enumerating the NICs and logging the prompts; otherwise the address is stored back into the arguments and the run goes on |
| SetupCommand.Setup.Deploy | factioncli/commands/setup.py:140-161 | the trace grows by exactly the deployment: the downloads of a source build, one compose file, the two clones on the channel's branch, then build_faction |
| SetupCommand.Setup.Provision | factioncli/commands/setup.py:198-205 | the trace grows by roles, system user, admin user, the system id lookup, a transport key for that id, and the direct transport with that key |
| SetupCommand.Setup.AfterBuild | factioncli/commands/setup.py:163-212 | the trace grows by the dev pause or the readiness wait with its migration, then provisioning, the restart outside dev mode, the config read and the summary; the outcome is Blocked(CoreReadiness) when the core never runs |
| SetupCommand.Setup.TakeAction | factioncli/commands/setup.py:101-212 | the trace grows by exactly the reference trace for the arguments held on entry, the outcome is the reference outcome, and the external address becomes the resolved one (or stays unchanged when the run stops before the configuration) |
| BootstrapProperties.MalformedAddressRejected | factioncli/commands/setup.py:104-106 | a supplied, non-empty address without a web scheme fails with the exact message, the fatal stop is the only effect, and no configuration is written |
| BootstrapProperties.FailsOnlyOnMalformedAddress | factioncli/commands/setup.py:104-106 | the run fails iff a non-empty supplied address lacks both web schemes |
| BootstrapProperties.ConfigWrittenOnceFirst | factioncli/commands/setup.py:104-138 | in every run that gets past the address, the configuration is written exactly once, with the resolved address, and only the NIC enumeration and the prompts come before it |
| BootstrapProperties.SuppliedAddressUnchanged | factioncli/commands/setup.py:104-106 | a well-formed supplied address is written unchanged as the very first effect, and nobody is prompted |
| BootstrapProperties.InteractiveResolution | factioncli/commands/setup.py:107-116 | without an address, a first known answer at index k resolves to "https://" + that NIC's IP after enumerating the NICs once (a single get_ip_addresses call) and prompting k + 1 times |
| BootstrapProperties.InteractiveAddress | factioncli/commands/setup.py:107-118 | in that case the trace starts with the one get_ip_addresses call, then the k + 1 prompts in answer order, then the configuration write of "https://" + the NIC's IP, written once |
| BootstrapProperties.InteractivePromptCount | factioncli/commands/setup.py:109-115 | in that case exactly k + 1 answers are read over the whole run |
| BootstrapProperties.UnansweredPromptBlocks | factioncli/commands/setup.py:109-115 | when no answer is a known label the run blocks at the prompt, every answer is read, and no configuration is written |
| BootstrapProperties.DeploymentComposeCount | factioncli/commands/setup.py:147-156 | the deployment writes exactly one compose file |
| BootstrapProperties.ExactlyOneComposeWriter | factioncli/commands/setup.py:147-156 | every run past the address writes exactly one compose file: the build one for a source build, else the dev one for a dev build, else the hub one with the channel's tag |
| BootstrapProperties.DeploymentDownloads | factioncli/commands/setup.py:147-151 | the downloads of a deployment are exactly the per-component downloads of a source build, and none otherwise |
| BootstrapProperties.SourceBuildDownloads | factioncli/commands/setup.py:147-151 | the whole run downloads one repository per component, in list order and with the documented source and target, and none unless building from source |
| BootstrapProperties.DefaultSourceBuildDownloads | factioncli/commands/setup.py:147-151 | with the default install path (/opt/faction) and components, a source build downloads exactly FactionC2/Core, FactionC2/Build-Service-Dotnet, FactionC2/Console and FactionC2/API, in that order, each into /opt/faction/source/<component> |
| BootstrapProperties.DownloadsPrecedeBuildCompose | factioncli/commands/setup.py:147-152 | in a source build every download comes before the build compose file |
| BootstrapProperties.AuxiliaryClonesThenBuild | factioncli/commands/setup.py:147-161 | right after the compose file come the modules clone and the agent clone on the channel's branch into their paths under the install path, then build_faction; these two are the only clones of the whole run |
| BootstrapProperties.BuildFactionOnce | factioncli/commands/setup.py:161 | build_faction runs exactly once in every run past the address |
| BootstrapProperties.PollLogQueries | factioncli/commands/setup.py:177-179 | the poll loop queries once per reply, and the j-th query carries the j-th reply |
| BootstrapProperties.PollLogSleeps | factioncli/commands/setup.py:180-186 | the poll loop waits 15 seconds exactly once per absent reply and sleeps at no other time |
| BootstrapProperties.SleepFollowsAbsentReply | factioncli/commands/setup.py:184-186 | every wait in the poll loop directly follows a query whose reply was absent |
| BootstrapProperties.PresentReplyRequeriedAtOnce | factioncli/commands/setup.py:180-183 | a present reply is followed directly by the next query, with no wait |
| BootstrapProperties.ReadinessGate | factioncli/commands/setup.py:174-186 | outside dev mode, when the k-th reply is the first running one, the run completes after exactly k + 1 queries carrying the replies in order, one 30-second warm-up, and one 15-second wait per absent reply before k |
| BootstrapProperties.WarmUpFollowsBuild | factioncli/commands/setup.py:161-176 | outside dev mode, the 30-second warm-up comes directly after build_faction, and no sleep and no status query happens before it |
| BootstrapProperties.PauseFollowsBuild | factioncli/commands/setup.py:161-172 | in dev mode, the operator pause comes directly after build_faction, and no sleep, status query or other pause happens before it |
| BootstrapProperties.MigrationAfterReady | factioncli/commands/setup.py:177-189 | the Initial migration is created right after the query that saw the core running and applied right after that, each exactly once |
| BootstrapProperties.NoMigrationUntilReady | factioncli/commands/setup.py:174-189 | if the core never reports running, the run stays blocked at the readiness gate after querying once per reply, and no migration, provisioning, restart or summary happens |
| BootstrapProperties.DevModeSkipsReadiness | factioncli/commands/setup.py:163-172 | a dev-environment run pauses exactly once for the operator, never sleeps, polls, migrates or restarts the core, and completes |
| BootstrapProperties.CompletedRunEnding | factioncli/commands/setup.py:188-212 | every completed run ends with the provisioning chain and the wrap-up, which start right after the database update, or right after the pause in dev mode; the chain holds the run's only provisioning steps, so each principal, the key and the transport are created exactly once |
| BootstrapProperties.TransportKeyFlow | factioncli/commands/setup.py:198-205 | provisioning is six steps; the only key minted is a Transport key, for and owned by the id just looked up for the system account, and the next step creates the direct transport with that key |
| BootstrapProperties.RestartOnlyOutsideDev | factioncli/commands/setup.py:207-212 | a completed run restarts the core iff it is not a dev-environment build, and then exactly once; its last two effects read the configuration and print the summary |
| BootstrapProperties.HubScenario | factioncli/commands/setup.py:140-189 | for a stable hub deployment with a supplied https address, replies absent, "created" and "Running" complete the run after three queries and one 15-second wait, pull the latest images, and restart the core |

## Left out

- Terminal output is not modelled, except the closing summary of setup.py:212 (`Summary`): the other `print_output` messages, the NIC table printed before every prompt, the dev-mode instructions and the debug log line have no action. The two `input` calls are `Prompt` and `Pause`. `GetIpAddresses` records the single enumeration of the NICs, not the table.
- `get_container` has no action of its own: the lookup and `restart_container` together are the one `RestartCore` action. The `error_out` message is kept word for word in `Fatal`.
- Most `get_parser` flags are left out: passwords, secrets, hosts, ports, container names, log settings and the GitHub token. They only flow into `generate_config_file` and `download_github_repo`. `WriteConfig` records only the external address, and `Download` omits the repeated component name and the token.
- The internals of the collaborators are outside this model. `generate_config_file`, the compose writers, the repository helpers, `build_faction`, the database, user and key helpers, the Docker container helpers and `get_config` are each one trace action. `get_ip_addresses`, `input`, `get_container_status`, `get_user_id` and `new_api_key` are oracle values in `Env`.
- Exceptions raised by collaborators, an end of input at the prompt, and a failing container lookup are not modelled. Each would cut the trace short.
- `error_out` is assumed to end the process, so nothing follows `Fatal`.
- The prompt and the readiness poll can wait forever in the source. The model does not prove that they terminate. When the finite oracle runs out it reports `Blocked(NicPrompt)` or `Blocked(CoreReadiness)`.
- `Bootstrap.Lower` folds only ASCII `A`-`Z`, while Python's `str.lower` also folds other letters. This cannot change `IsRunning`: no string with a non-ASCII character lowers to `running` in Python (U+212A KELVIN SIGN lowers to `k`, and U+0130 lowers to `i` followed by U+0307), so the readiness test agrees with the source on every status string.
- `Bootstrap.Wrapup` tests "not dev" for the restart. The source tests `is None or is False`; with a `store_true` flag the value is always a bool, so the two agree.
- `--release` choices are not enforced inside `take_action`. The parser rejects other values before the command runs. The model takes any string and treats every value other than `development` like `stable`, as the code does.
- The real clock is not modelled; `sleep` is a `Sleep(seconds)` action.
