/**
 * The command-line arguments of `faction setup` that the bootstrap trace
 * depends on, with the parser's defaults and choices, and the mapping from a
 * release channel to an image tag and a source branch.
 */
module Arguments {
  import opened Wrappers

  /** The parsed arguments the sequence reads, as a value. */
  datatype Args = Args(
    externalAddress: Option<string>,
    factionPath: string,
    release: string,
    components: seq<string>,
    buildFromSource: bool,
    buildForDevEnvironment: bool)

  /** `--release` accepts exactly these two values. */
  const ReleaseChoices: seq<string> := ["stable", "development"]
  const DefaultRelease: string := "stable"

  /** `--components` defaults to the four services that make up the platform. */
  const DefaultComponents: seq<string> := ["Core", "Build-Service-Dotnet", "Console", "API"]

  const DefaultFactionPath: string := "/opt/faction"

  /** Where a release channel points: the Docker image tag and the GitHub branch. */
  datatype Channel = Channel(dockerTag: string, githubBranch: string)

  /** The tag and branch start at "latest"/"master" and switch only for "development". */
  function ChannelOf(release: string): Channel
  {
    if release == "development" then Channel("dev", "development") else Channel("latest", "master")
  }

  /** An external address must carry one of the two web schemes. */
  predicate HasWebScheme(address: string)
  {
    "http://" <= address || "https://" <= address
  }

  /** Python truthiness of `parsed_args.external_address`: neither `None` nor the empty string. */
  predicate AddressSupplied(address: Option<string>)
  {
    address.Some? && address.value != ""
  }
}
