/**
 * The agent's settings store: module-level globals filled from `agent.config` by
 * `initialize`, and written back into the configuration by `save_settings`.
 *
 * `initialize` reads the options one after another and assigns each global as soon
 * as it is read, so an option that is missing (or a port that is not an integer)
 * stops it with every earlier global already set and every later one untouched.
 * The specification below follows that order in stages, each a `Partial`
 * computation that either continues with the updated globals or halts with the
 * globals as they stood and the way `initialize` ended.
 */
module Settings {
  import opened Wrappers
  import CommaList
  import Decimal
  import opened IniConfig
  import AgentPaths

  const AppSettingsSection: string := "appSettings"
  const AgentInfoSection: string := "agentInfo"
  // The option names `initialize` reads, as the source spells them.
  const ServerPortOption: string := "serverport"
  const AgentPortOption: string := "agentport"
  const LogLevelOption: string := "loglevel"
  const AgentIdOption: string := "agentid"
  const TokenOption: string := "token"
  const ViewsOption: string := "views"
  const TagsOption: string := "tags"
  const NameOption: string := "name"
  const VersionOption: string := "version"
  const DescriptionOption: string := "description"
  const InstallDateOption: string := "installdate"
  const HostnameOption: string := "ServerHostname"
  const IpAddressOption: string := "ServerIpAddress"
  // `save_settings` writes the address options under their lower-case names.
  const SavedHostnameOption: string := "serverhostname"
  const SavedIpAddressOption: string := "serveripaddress"
  const DefaultAppName: string := "agent"
  const NoAddressMessage: string := "No valid hostname or ip address was given for the RV Server."
  const EditConfigMessage: string := "Please edit agent.config (in the vFense/agent directory) to correct it."

  /** What the store hands to the logger: its initialisation, and critical messages. */
  datatype LogEvent =
    | LoggerInit(appName: string, logDirectory: string, logLevel: string)
    | Critical(message: string)

  /**
   * The exceptions the store lets escape: ConfigParser's NoSectionError and NoOptionError
   * (which names the option in lower case), and the ValueError of `int()`.
   */
  datatype InitError =
    | NoSection(section: string)
    | NoOption(section: string, option: string)
    | NotAnInteger(option: string, raw: string)

  /** How a call of `initialize` ends: normally, by an exception, or by `sys.exit`. */
  datatype Outcome = Ready | Failed(error: InitError) | Exit(status: int)

  /** The module's globals (None where Python holds None), and what was logged so far. */
  datatype Globals = Globals(
    config: Option<Config>,
    serverPort: Option<int>,
    agentPort: Option<int>,
    logLevel: Option<string>,
    agentId: Option<string>,
    token: Option<string>,
    views: seq<string>,
    tags: seq<string>,
    agentName: Option<string>,
    agentVersion: Option<string>,
    agentDescription: Option<string>,
    agentInstallDate: Option<string>,
    serverHostname: Option<string>,
    serverIpAddress: Option<string>,
    serverAddress: Option<string>,
    log: seq<LogEvent>)

  /** The globals as the module defines them on import. */
  function ModuleDefaults(): Globals {
    Globals(None, None, None, None, None, None, [], [], None, None, None, None, None, None, None, [])
  }

  /** The globals after a call of `initialize`, and how the call ended. */
  datatype Step = Step(state: Globals, outcome: Outcome)

  /** A stage of `initialize`: it goes on with a value, or it has stopped. */
  datatype Partial<T> = Continue(value: T) | Halt(final: Globals, outcome: Outcome) {
    predicate IsFailure() {
      Halt?
    }

    function PropagateFailure<U>(): Partial<U>
      requires Halt?
    {
      Halt(final, outcome)
    }

    function Extract(): T
      requires Continue?
    {
      value
    }
  }

  function Settle(p: Partial<Globals>): Step {
    match p
    case Continue(g) => Step(g, Ready)
    case Halt(g, outcome) => Step(g, outcome)
  }

  // ---------------------------------------------------------------------------
  // What the configuration holds, stated independently of the reading order.

  predicate Present(cfg: Config, section: string, option: string) {
    Get(cfg, section, option).Some?
  }

  function Text(cfg: Config, section: string, option: string): string
    requires Present(cfg, section, option)
  {
    Get(cfg, section, option).value
  }

  /** The option is there and `int()` accepts it. */
  predicate IsPort(cfg: Config, option: string) {
    Present(cfg, AppSettingsSection, option) && Decimal.ParseInt(Text(cfg, AppSettingsSection, option)).Some?
  }

  function PortValue(cfg: Config, option: string): int
    requires IsPort(cfg, option)
  {
    Decimal.ParseInt(Text(cfg, AppSettingsSection, option)).value
  }

  /** The eleven options `initialize` reads before it starts the logger are there, and both ports are integers. */
  predicate ReadablePrefix(cfg: Config) {
    && IsPort(cfg, ServerPortOption)
    && IsPort(cfg, AgentPortOption)
    && Present(cfg, AppSettingsSection, LogLevelOption)
    && Present(cfg, AppSettingsSection, AgentIdOption)
    && Present(cfg, AppSettingsSection, TokenOption)
    && Present(cfg, AppSettingsSection, ViewsOption)
    && Present(cfg, AppSettingsSection, TagsOption)
    && Present(cfg, AgentInfoSection, NameOption)
    && Present(cfg, AgentInfoSection, VersionOption)
    && Present(cfg, AgentInfoSection, DescriptionOption)
    && Present(cfg, AgentInfoSection, InstallDateOption)
  }

  /** Every option `initialize` reads is there and both ports are integers. */
  predicate Complete(cfg: Config) {
    ReadablePrefix(cfg) && Present(cfg, AppSettingsSection, HostnameOption) && Present(cfg, AppSettingsSection, IpAddressOption)
  }

  /** Both server addresses are there and both are empty. */
  predicate NoServerAddress(cfg: Config) {
    Get(cfg, AppSettingsSection, HostnameOption) == Some("") && Get(cfg, AppSettingsSection, IpAddressOption) == Some("")
  }

  /** The error names a real defect of the configuration. */
  predicate Explains(cfg: Config, e: InitError) {
    match e
    case NoSection(section) => section !in Sections(cfg)
    case NoOption(section, option) => section in Sections(cfg) && !Present(cfg, section, option)
    case NotAnInteger(option, raw) =>
      Get(cfg, AppSettingsSection, option) == Some(raw) && Decimal.ParseInt(raw).None?
  }

  /** What `_config.get(section, option)` raises for an absent option; NoOptionError names it lower-cased. */
  function Missing(cfg: Config, section: string, option: string): (e: InitError)
    requires !Present(cfg, section, option)
    ensures Explains(cfg, e)
    ensures e.NoSection? <==> section !in Sections(cfg)
    ensures e.NoOption? ==> e.section == section && e.option == Lower(option)
  {
    LowerTwice(section, option);
    if section in Sections(cfg) then NoOption(section, Lower(option)) else NoSection(section)
  }

  /** What `int(_config.get(appSettings, option))` raises when it fails. */
  function PortError(cfg: Config, option: string): (e: InitError)
    requires !IsPort(cfg, option)
    ensures Explains(cfg, e)
    ensures Present(cfg, AppSettingsSection, option) ==> e == NotAnInteger(option, Text(cfg, AppSettingsSection, option))
    ensures !Present(cfg, AppSettingsSection, option) ==> e == Missing(cfg, AppSettingsSection, option)
  {
    if Present(cfg, AppSettingsSection, option) then NotAnInteger(option, Text(cfg, AppSettingsSection, option))
    else Missing(cfg, AppSettingsSection, option)
  }

  // ---------------------------------------------------------------------------
  // Single reads.

  /** `_config.get(section, option)`, assigned to nothing yet. */
  function Read(g: Globals, cfg: Config, section: string, option: string): (r: Partial<string>)
    ensures r.Continue? <==> Present(cfg, section, option)
    ensures r.Continue? ==> Get(cfg, section, option) == Some(r.value)
    ensures r.Halt? ==> r.final == g && r.outcome == Failed(Missing(cfg, section, option))
  {
    if section !in Sections(cfg) then
      GetHasSection(cfg, section, option);
      Halt(g, Failed(NoSection(section)))
    else
      match Get(cfg, section, option)
      case None => Halt(g, Failed(NoOption(section, Lower(option))))
      case Some(v) => Continue(v)
  }

  /** `int(_config.get(appSettings, option))`. */
  function ReadInt(g: Globals, cfg: Config, option: string): (r: Partial<int>)
    ensures r.Continue? <==> IsPort(cfg, option)
    ensures r.Continue? ==> r.value == PortValue(cfg, option)
    ensures r.Halt? ==> r.final == g && r.outcome == Failed(PortError(cfg, option))
  {
    var raw :- Read(g, cfg, AppSettingsSection, option);
    match Decimal.ParseInt(raw)
    case None => Halt(g, Failed(NotAnInteger(option, raw)))
    case Some(n) => Continue(n)
  }

  // ---------------------------------------------------------------------------
  // The stages of `initialize`, in the order the source runs them.

  /** ServerPort, then AgentPort, each an `int()` of its option. */
  function ReadPorts(g: Globals, cfg: Config): (r: Partial<Globals>)
    ensures r.Continue? <==> IsPort(cfg, ServerPortOption) && IsPort(cfg, AgentPortOption)
    ensures r.Continue? ==>
      r.value == g.(serverPort := Some(PortValue(cfg, ServerPortOption)), agentPort := Some(PortValue(cfg, AgentPortOption)))
    ensures r.Halt? ==> r.outcome.Failed? && Explains(cfg, r.outcome.error)
    ensures !IsPort(cfg, ServerPortOption) ==>
      r.Halt? && r.final == g && r.outcome == Failed(PortError(cfg, ServerPortOption))
    ensures IsPort(cfg, ServerPortOption) && !IsPort(cfg, AgentPortOption) ==>
      && r.Halt? && r.final == g.(serverPort := Some(PortValue(cfg, ServerPortOption)))
      && r.outcome == Failed(PortError(cfg, AgentPortOption))
  {
    var serverPort :- ReadInt(g, cfg, ServerPortOption);
    var g1 := g.(serverPort := Some(serverPort));
    var agentPort :- ReadInt(g1, cfg, AgentPortOption);
    Continue(g1.(agentPort := Some(agentPort)))
  }

  /** LogLevel, AgentId and Token, as text. */
  function ReadStrings(g: Globals, cfg: Config): (r: Partial<Globals>)
    ensures r.Continue? <==>
      Present(cfg, AppSettingsSection, LogLevelOption) && Present(cfg, AppSettingsSection, AgentIdOption)
      && Present(cfg, AppSettingsSection, TokenOption)
    ensures r.Continue? ==>
      r.value == g.(logLevel := Get(cfg, AppSettingsSection, LogLevelOption),
                    agentId := Get(cfg, AppSettingsSection, AgentIdOption),
                    token := Get(cfg, AppSettingsSection, TokenOption))
    ensures r.Halt? ==> r.outcome.Failed? && Explains(cfg, r.outcome.error)
    ensures !Present(cfg, AppSettingsSection, LogLevelOption) ==>
      r.Halt? && r.final == g && r.outcome == Failed(Missing(cfg, AppSettingsSection, LogLevelOption))
    ensures Present(cfg, AppSettingsSection, LogLevelOption) && !Present(cfg, AppSettingsSection, AgentIdOption) ==>
      && r.Halt? && r.final == g.(logLevel := Get(cfg, AppSettingsSection, LogLevelOption))
      && r.outcome == Failed(Missing(cfg, AppSettingsSection, AgentIdOption))
    ensures Present(cfg, AppSettingsSection, LogLevelOption) && Present(cfg, AppSettingsSection, AgentIdOption)
            && !Present(cfg, AppSettingsSection, TokenOption) ==>
      && r.Halt?
      && r.final == g.(logLevel := Get(cfg, AppSettingsSection, LogLevelOption),
                       agentId := Get(cfg, AppSettingsSection, AgentIdOption))
      && r.outcome == Failed(Missing(cfg, AppSettingsSection, TokenOption))
  {
    var logLevel :- Read(g, cfg, AppSettingsSection, LogLevelOption);
    var g1 := g.(logLevel := Some(logLevel));
    var agentId :- Read(g1, cfg, AppSettingsSection, AgentIdOption);
    var g2 := g1.(agentId := Some(agentId));
    var token :- Read(g2, cfg, AppSettingsSection, TokenOption);
    Continue(g2.(token := Some(token)))
  }

  /** Views, then Tags: a non-empty text is split at commas, an empty one keeps the list as it was. */
  function ReadLists(g: Globals, cfg: Config): (r: Partial<Globals>)
    ensures r.Continue? <==> Present(cfg, AppSettingsSection, ViewsOption) && Present(cfg, AppSettingsSection, TagsOption)
    ensures r.Continue? ==>
      r.value == g.(views := CommaList.Decode(Text(cfg, AppSettingsSection, ViewsOption), g.views),
                    tags := CommaList.Decode(Text(cfg, AppSettingsSection, TagsOption), g.tags))
    ensures r.Halt? ==> r.outcome.Failed? && Explains(cfg, r.outcome.error)
    ensures !Present(cfg, AppSettingsSection, ViewsOption) ==>
      r.Halt? && r.final == g && r.outcome == Failed(Missing(cfg, AppSettingsSection, ViewsOption))
    ensures Present(cfg, AppSettingsSection, ViewsOption) && !Present(cfg, AppSettingsSection, TagsOption) ==>
      && r.Halt? && r.final == g.(views := CommaList.Decode(Text(cfg, AppSettingsSection, ViewsOption), g.views))
      && r.outcome == Failed(Missing(cfg, AppSettingsSection, TagsOption))
  {
    var loadedViews :- Read(g, cfg, AppSettingsSection, ViewsOption);
    var g1 := g.(views := CommaList.Decode(loadedViews, g.views));
    var loadedTags :- Read(g1, cfg, AppSettingsSection, TagsOption);
    Continue(g1.(tags := CommaList.Decode(loadedTags, g1.tags)))
  }

  /** AgentName, AgentVersion, AgentDescription and AgentInstallDate, from the agentInfo section. */
  function ReadAgentInfo(g: Globals, cfg: Config): (r: Partial<Globals>)
    ensures r.Continue? <==>
      Present(cfg, AgentInfoSection, NameOption) && Present(cfg, AgentInfoSection, VersionOption)
      && Present(cfg, AgentInfoSection, DescriptionOption) && Present(cfg, AgentInfoSection, InstallDateOption)
    ensures r.Continue? ==>
      r.value == g.(agentName := Get(cfg, AgentInfoSection, NameOption),
                    agentVersion := Get(cfg, AgentInfoSection, VersionOption),
                    agentDescription := Get(cfg, AgentInfoSection, DescriptionOption),
                    agentInstallDate := Get(cfg, AgentInfoSection, InstallDateOption))
    ensures r.Halt? ==> r.outcome.Failed? && Explains(cfg, r.outcome.error)
    ensures !Present(cfg, AgentInfoSection, NameOption) ==>
      r.Halt? && r.final == g && r.outcome == Failed(Missing(cfg, AgentInfoSection, NameOption))
    ensures Present(cfg, AgentInfoSection, NameOption) && !Present(cfg, AgentInfoSection, VersionOption) ==>
      && r.Halt? && r.final == g.(agentName := Get(cfg, AgentInfoSection, NameOption))
      && r.outcome == Failed(Missing(cfg, AgentInfoSection, VersionOption))
    ensures Present(cfg, AgentInfoSection, NameOption) && Present(cfg, AgentInfoSection, VersionOption)
            && !Present(cfg, AgentInfoSection, DescriptionOption) ==>
      && r.Halt?
      && r.final == g.(agentName := Get(cfg, AgentInfoSection, NameOption),
                       agentVersion := Get(cfg, AgentInfoSection, VersionOption))
      && r.outcome == Failed(Missing(cfg, AgentInfoSection, DescriptionOption))
    ensures Present(cfg, AgentInfoSection, NameOption) && Present(cfg, AgentInfoSection, VersionOption)
            && Present(cfg, AgentInfoSection, DescriptionOption) && !Present(cfg, AgentInfoSection, InstallDateOption) ==>
      && r.Halt?
      && r.final == g.(agentName := Get(cfg, AgentInfoSection, NameOption),
                       agentVersion := Get(cfg, AgentInfoSection, VersionOption),
                       agentDescription := Get(cfg, AgentInfoSection, DescriptionOption))
      && r.outcome == Failed(Missing(cfg, AgentInfoSection, InstallDateOption))
  {
    var name :- Read(g, cfg, AgentInfoSection, NameOption);
    var g1 := g.(agentName := Some(name));
    var version :- Read(g1, cfg, AgentInfoSection, VersionOption);
    var g2 := g1.(agentVersion := Some(version));
    var description :- Read(g2, cfg, AgentInfoSection, DescriptionOption);
    var g3 := g2.(agentDescription := Some(description));
    var installDate :- Read(g3, cfg, AgentInfoSection, InstallDateOption);
    Continue(g3.(agentInstallDate := Some(installDate)))
  }

  /** The name the logger is started under: `appName`, unless it is None or empty. */
  function EffectiveAppName(appName: Option<string>): (name: string)
    ensures name != ""
    ensures appName.None? || appName == Some("") ==> name == DefaultAppName
    ensures appName.Some? && appName.value != "" ==> name == appName.value
  {
    if appName.None? || appName.value == "" then DefaultAppName else appName.value
  }

  /** The outcome of `_get_server_addresses`. */
  datatype Addresses =
    | Found(hostname: string, ipAddress: string)
    | Unreadable(error: InitError)
    | Fatal(events: seq<LogEvent>, status: int)

  /**
   * Reads the hostname, then the IP address; when both are empty it logs two critical
   * messages and exits with status 1, and otherwise returns both.
   */
  function GetServerAddresses(cfg: Config): (r: Addresses)
    ensures r.Fatal? <==> NoServerAddress(cfg)
    ensures r.Fatal? ==>
      r.status == 1 && r.events == [Critical(NoAddressMessage), Critical(EditConfigMessage)]
    ensures r.Unreadable? <==>
      !Present(cfg, AppSettingsSection, HostnameOption) || !Present(cfg, AppSettingsSection, IpAddressOption)
    ensures r.Unreadable? ==> Explains(cfg, r.error)
    ensures r.Unreadable? && r.error.NoOption? ==>
      r.error.option == if !Present(cfg, AppSettingsSection, HostnameOption) then SavedHostnameOption else SavedIpAddressOption
    ensures r.Found? ==>
      && Get(cfg, AppSettingsSection, HostnameOption) == Some(r.hostname)
      && Get(cfg, AppSettingsSection, IpAddressOption) == Some(r.ipAddress)
      && (r.hostname != "" || r.ipAddress != "")
  {
    AddressKeysAgree();
    if !Present(cfg, AppSettingsSection, HostnameOption) then
      Unreadable(Missing(cfg, AppSettingsSection, HostnameOption))
    else if !Present(cfg, AppSettingsSection, IpAddressOption) then
      Unreadable(Missing(cfg, AppSettingsSection, IpAddressOption))
    else
      var hostname := Text(cfg, AppSettingsSection, HostnameOption);
      var ipAddress := Text(cfg, AppSettingsSection, IpAddressOption);
      if hostname == "" && ipAddress == "" then
        Fatal([Critical(NoAddressMessage), Critical(EditConfigMessage)], 1)
      else
        Found(hostname, ipAddress)
  }

  /** ServerAddress: the hostname when there is one, else the IP address; never empty when either is given. */
  function ResolveServerAddress(hostname: string, ipAddress: string): (address: string)
    ensures hostname != "" || ipAddress != "" ==> address != ""
    ensures hostname != "" ==> address == hostname
    ensures hostname == "" ==> address == ipAddress
  {
    if hostname != "" then hostname else ipAddress
  }

  /** The logger is started with LogLevel, then the server addresses are looked up. */
  function Finish(g: Globals, cfg: Config, logDirectory: string, appName: Option<string>): (r: Partial<Globals>)
    requires g.logLevel.Some?
    ensures var logged := g.log + [LoggerInit(EffectiveAppName(appName), logDirectory, g.logLevel.value)];
      && (r.Continue? <==>
          Present(cfg, AppSettingsSection, HostnameOption) && Present(cfg, AppSettingsSection, IpAddressOption)
          && !NoServerAddress(cfg))
      && (r.Continue? ==>
          var hostname := Text(cfg, AppSettingsSection, HostnameOption);
          var ipAddress := Text(cfg, AppSettingsSection, IpAddressOption);
          r.value == g.(log := logged, serverHostname := Some(hostname), serverIpAddress := Some(ipAddress),
                        serverAddress := Some(if hostname != "" then hostname else ipAddress)))
      && (r.Halt? && NoServerAddress(cfg) ==>
          r.outcome == Exit(1) && r.final == g.(log := logged + [Critical(NoAddressMessage), Critical(EditConfigMessage)]))
      && (r.Halt? && !NoServerAddress(cfg) ==>
          r.outcome.Failed? && Explains(cfg, r.outcome.error) && r.final == g.(log := logged))
  {
    var g1 := g.(log := g.log + [LoggerInit(EffectiveAppName(appName), logDirectory, g.logLevel.value)]);
    match GetServerAddresses(cfg)
    case Unreadable(e) => Halt(g1, Failed(e))
    case Fatal(events, status) => Halt(g1.(log := g1.log + events), Exit(status))
    case Found(hostname, ipAddress) =>
      Continue(g1.(serverHostname := Some(hostname), serverIpAddress := Some(ipAddress),
                   serverAddress := Some(ResolveServerAddress(hostname, ipAddress))))
  }

  function Load(g: Globals, cfg: Config, logDirectory: string, appName: Option<string>): Partial<Globals> {
    var g1 :- ReadPorts(g, cfg);
    var g2 :- ReadStrings(g1, cfg);
    var g3 :- ReadLists(g2, cfg);
    var g4 :- ReadAgentInfo(g3, cfg);
    Finish(g4, cfg, logDirectory, appName)
  }

  /** `initialize(appName)` on the globals `g` with the parsed `agent.config` `cfg`. */
  function InitializeSpec(g: Globals, logDirectory: string, cfg: Config, appName: Option<string>): Step {
    Settle(Load(g.(config := Some(cfg)), cfg, logDirectory, appName))
  }

  // ---------------------------------------------------------------------------
  // What `initialize` does, stated against the configuration as a whole.

  /** The globals `initialize` assigns before it starts the logger, all at once. */
  function Assigned(g: Globals, cfg: Config): Globals
    requires ReadablePrefix(cfg)
  {
    g.(serverPort := Some(PortValue(cfg, ServerPortOption)),
       agentPort := Some(PortValue(cfg, AgentPortOption)),
       logLevel := Get(cfg, AppSettingsSection, LogLevelOption),
       agentId := Get(cfg, AppSettingsSection, AgentIdOption),
       token := Get(cfg, AppSettingsSection, TokenOption),
       views := CommaList.Decode(Text(cfg, AppSettingsSection, ViewsOption), g.views),
       tags := CommaList.Decode(Text(cfg, AppSettingsSection, TagsOption), g.tags),
       agentName := Get(cfg, AgentInfoSection, NameOption),
       agentVersion := Get(cfg, AgentInfoSection, VersionOption),
       agentDescription := Get(cfg, AgentInfoSection, DescriptionOption),
       agentInstallDate := Get(cfg, AgentInfoSection, InstallDateOption))
  }

  /**
   * Which of the eleven reads before the logger fails first, counted in the source's order:
   * 0 and 1 the ports, 2 to 4 LogLevel, AgentId and Token, 5 and 6 Views and Tags, 7 to 10
   * the agentInfo options; 11 when none fails.
   */
  function FailingRead(cfg: Config): (k: nat)
    ensures k <= 11
    ensures k == 11 <==> ReadablePrefix(cfg)
  {
    if !IsPort(cfg, ServerPortOption) then 0
    else if !IsPort(cfg, AgentPortOption) then 1
    else if !Present(cfg, AppSettingsSection, LogLevelOption) then 2
    else if !Present(cfg, AppSettingsSection, AgentIdOption) then 3
    else if !Present(cfg, AppSettingsSection, TokenOption) then 4
    else if !Present(cfg, AppSettingsSection, ViewsOption) then 5
    else if !Present(cfg, AppSettingsSection, TagsOption) then 6
    else if !Present(cfg, AgentInfoSection, NameOption) then 7
    else if !Present(cfg, AgentInfoSection, VersionOption) then 8
    else if !Present(cfg, AgentInfoSection, DescriptionOption) then 9
    else if !Present(cfg, AgentInfoSection, InstallDateOption) then 10
    else 11
  }

  /** What the first failing read raises. */
  function ReadError(cfg: Config): (e: InitError)
    requires !ReadablePrefix(cfg)
    ensures Explains(cfg, e)
  {
    match FailingRead(cfg)
    case 0 => PortError(cfg, ServerPortOption)
    case 1 => PortError(cfg, AgentPortOption)
    case 2 => Missing(cfg, AppSettingsSection, LogLevelOption)
    case 3 => Missing(cfg, AppSettingsSection, AgentIdOption)
    case 4 => Missing(cfg, AppSettingsSection, TokenOption)
    case 5 => Missing(cfg, AppSettingsSection, ViewsOption)
    case 6 => Missing(cfg, AppSettingsSection, TagsOption)
    case 7 => Missing(cfg, AgentInfoSection, NameOption)
    case 8 => Missing(cfg, AgentInfoSection, VersionOption)
    case 9 => Missing(cfg, AgentInfoSection, DescriptionOption)
    case _ => Missing(cfg, AgentInfoSection, InstallDateOption)
  }

  /** The globals `initialize` has assigned when a read fails: exactly those read before it. */
  function PartiallyAssigned(g: Globals, cfg: Config): Globals {
    var k := FailingRead(cfg);
    g.(serverPort := if k > 0 then Some(PortValue(cfg, ServerPortOption)) else g.serverPort,
       agentPort := if k > 1 then Some(PortValue(cfg, AgentPortOption)) else g.agentPort,
       logLevel := if k > 2 then Get(cfg, AppSettingsSection, LogLevelOption) else g.logLevel,
       agentId := if k > 3 then Get(cfg, AppSettingsSection, AgentIdOption) else g.agentId,
       token := if k > 4 then Get(cfg, AppSettingsSection, TokenOption) else g.token,
       views := if k > 5 then CommaList.Decode(Text(cfg, AppSettingsSection, ViewsOption), g.views) else g.views,
       tags := if k > 6 then CommaList.Decode(Text(cfg, AppSettingsSection, TagsOption), g.tags) else g.tags,
       agentName := if k > 7 then Get(cfg, AgentInfoSection, NameOption) else g.agentName,
       agentVersion := if k > 8 then Get(cfg, AgentInfoSection, VersionOption) else g.agentVersion,
       agentDescription := if k > 9 then Get(cfg, AgentInfoSection, DescriptionOption) else g.agentDescription,
       agentInstallDate := if k > 10 then Get(cfg, AgentInfoSection, InstallDateOption) else g.agentInstallDate)
  }

  /** What the logger is started with. */
  function StartLogger(cfg: Config, logDirectory: string, appName: Option<string>): LogEvent
    requires ReadablePrefix(cfg)
  {
    LoggerInit(EffectiveAppName(appName), logDirectory, Text(cfg, AppSettingsSection, LogLevelOption))
  }

  /** The globals a successful `initialize` leaves: the reference the staged reads are held to. */
  function Configured(g: Globals, logDirectory: string, cfg: Config, appName: Option<string>): Globals
    requires Complete(cfg)
  {
    var hostname := Text(cfg, AppSettingsSection, HostnameOption);
    var ipAddress := Text(cfg, AppSettingsSection, IpAddressOption);
    Assigned(g.(config := Some(cfg)), cfg).(
      serverHostname := Some(hostname),
      serverIpAddress := Some(ipAddress),
      serverAddress := Some(ResolveServerAddress(hostname, ipAddress)),
      log := g.log + [StartLogger(cfg, logDirectory, appName)])
  }

  /** The four reading stages end in `Finish` when the eleven options they read are usable... */
  lemma LoadReachesFinish(g: Globals, cfg: Config, logDirectory: string, appName: Option<string>)
    requires ReadablePrefix(cfg)
    ensures Load(g, cfg, logDirectory, appName) == Finish(Assigned(g, cfg), cfg, logDirectory, appName)
  {
  }

  /**
   * ... and otherwise stop at the first failing read, with its error and the globals read
   * before it assigned, before the logger is started.
   */
  lemma LoadStopsEarly(g: Globals, cfg: Config, logDirectory: string, appName: Option<string>)
    requires !ReadablePrefix(cfg)
    ensures var r := Load(g, cfg, logDirectory, appName);
      && r.Halt? && r.outcome == Failed(ReadError(cfg)) && r.final == PartiallyAssigned(g, cfg)
  {
    var k := FailingRead(cfg);
    if k < 2 {
      StopsInPorts(g, cfg, logDirectory, appName);
    } else if k < 5 {
      StopsInStrings(g, cfg, logDirectory, appName);
    } else if k < 7 {
      StopsInLists(g, cfg, logDirectory, appName);
    } else {
      StopsInAgentInfo(g, cfg, logDirectory, appName);
    }
  }

  lemma StopsInPorts(g: Globals, cfg: Config, logDirectory: string, appName: Option<string>)
    requires FailingRead(cfg) < 2
    ensures Load(g, cfg, logDirectory, appName) == Halt(PartiallyAssigned(g, cfg), Failed(ReadError(cfg)))
  {
  }

  lemma StopsInStrings(g: Globals, cfg: Config, logDirectory: string, appName: Option<string>)
    requires 2 <= FailingRead(cfg) < 5
    ensures Load(g, cfg, logDirectory, appName) == Halt(PartiallyAssigned(g, cfg), Failed(ReadError(cfg)))
  {
    assert ReadPorts(g, cfg).Continue?;
  }

  lemma StopsInLists(g: Globals, cfg: Config, logDirectory: string, appName: Option<string>)
    requires 5 <= FailingRead(cfg) < 7
    ensures Load(g, cfg, logDirectory, appName) == Halt(PartiallyAssigned(g, cfg), Failed(ReadError(cfg)))
  {
    var g1 := ReadPorts(g, cfg).value;
    assert ReadStrings(g1, cfg).Continue?;
  }

  lemma StopsInAgentInfo(g: Globals, cfg: Config, logDirectory: string, appName: Option<string>)
    requires 7 <= FailingRead(cfg) < 11
    ensures Load(g, cfg, logDirectory, appName) == Halt(PartiallyAssigned(g, cfg), Failed(ReadError(cfg)))
  {
    var g1 := ReadPorts(g, cfg).value;
    var g2 := ReadStrings(g1, cfg).value;
    assert ReadLists(g2, cfg).Continue?;
  }

  lemma LoadPrefix(g: Globals, cfg: Config, logDirectory: string, appName: Option<string>)
    ensures ReadablePrefix(cfg) ==> Load(g, cfg, logDirectory, appName) == Finish(Assigned(g, cfg), cfg, logDirectory, appName)
    ensures !ReadablePrefix(cfg) ==>
      var r := Load(g, cfg, logDirectory, appName);
      && r.Halt? && r.outcome == Failed(ReadError(cfg)) && r.final == PartiallyAssigned(g, cfg)
  {
    if ReadablePrefix(cfg) {
      LoadReachesFinish(g, cfg, logDirectory, appName);
    } else {
      LoadStopsEarly(g, cfg, logDirectory, appName);
    }
  }

  /** `initialize` raises exactly when the configuration is incomplete, exits exactly when it has no address. */
  lemma InitializeOutcomes(g: Globals, logDirectory: string, cfg: Config, appName: Option<string>)
    ensures var s := InitializeSpec(g, logDirectory, cfg, appName);
      && s.state.config == Some(cfg)
      && (s.outcome.Failed? <==> !Complete(cfg))
      && (s.outcome.Failed? ==> Explains(cfg, s.outcome.error))
      && (s.outcome.Exit? <==> Complete(cfg) && NoServerAddress(cfg))
      && (s.outcome == Ready <==> Complete(cfg) && !NoServerAddress(cfg))
  {
    LoadPrefix(g.(config := Some(cfg)), cfg, logDirectory, appName);
  }

  /** A successful `initialize` leaves exactly the globals of `Configured`. */
  lemma InitializeReady(g: Globals, logDirectory: string, cfg: Config, appName: Option<string>)
    ensures var s := InitializeSpec(g, logDirectory, cfg, appName);
      s.outcome == Ready ==> Complete(cfg) && s.state == Configured(g, logDirectory, cfg, appName)
  {
    LoadPrefix(g.(config := Some(cfg)), cfg, logDirectory, appName);
  }

  /** After a successful `initialize`, ServerAddress is the hostname if it is non-empty, else the IP, and never empty. */
  lemma ServerAddressChosen(g: Globals, logDirectory: string, cfg: Config, appName: Option<string>)
    ensures var s := InitializeSpec(g, logDirectory, cfg, appName);
      s.outcome == Ready ==>
        var hostname := Text(cfg, AppSettingsSection, HostnameOption);
        && s.state.serverAddress.Some? && s.state.serverAddress.value != ""
        && (hostname != "" ==> s.state.serverAddress == Some(hostname))
        && (hostname == "" ==> s.state.serverAddress == Get(cfg, AppSettingsSection, IpAddressOption))
  {
    InitializeReady(g, logDirectory, cfg, appName);
    InitializeOutcomes(g, logDirectory, cfg, appName);
  }

  /**
   * With both addresses empty, `initialize` starts the logger, logs exactly the two critical
   * messages after it and exits with status 1; the address globals are never assigned.
   */
  lemma InitializeExits(g: Globals, logDirectory: string, cfg: Config, appName: Option<string>)
    ensures var s := InitializeSpec(g, logDirectory, cfg, appName);
      s.outcome.Exit? ==>
        && ReadablePrefix(cfg)
        && s.outcome.status == 1
        && s.state == Assigned(g.(config := Some(cfg)), cfg).(
             log := g.log + [StartLogger(cfg, logDirectory, appName), Critical(NoAddressMessage), Critical(EditConfigMessage)])
  {
    LoadPrefix(g.(config := Some(cfg)), cfg, logDirectory, appName);
  }

  /**
   * An `initialize` that raises has assigned the globals read before the failing option and no other:
   * a failure among the first eleven options raises that read's error, leaves the logger unstarted
   * and the addresses as they were; a missing address option comes after the logger was started.
   */
  lemma InitializeFailureIsPartial(g: Globals, logDirectory: string, cfg: Config, appName: Option<string>)
    ensures var s := InitializeSpec(g, logDirectory, cfg, appName);
      && (!ReadablePrefix(cfg) ==>
           && s.outcome == Failed(ReadError(cfg))
           && s.state == PartiallyAssigned(g.(config := Some(cfg)), cfg)
           && s.state.log == g.log
           && s.state.serverHostname == g.serverHostname && s.state.serverIpAddress == g.serverIpAddress
           && s.state.serverAddress == g.serverAddress)
      && (s.outcome.Failed? && ReadablePrefix(cfg) ==>
           && s.outcome.error.NoOption?
           && (s.outcome.error.option == SavedHostnameOption || s.outcome.error.option == SavedIpAddressOption)
           && s.state == Assigned(g.(config := Some(cfg)), cfg).(log := g.log + [StartLogger(cfg, logDirectory, appName)]))
  {
    LoadPrefix(g.(config := Some(cfg)), cfg, logDirectory, appName);
    if ReadablePrefix(cfg) {
      GetHasSection(cfg, AppSettingsSection, LogLevelOption);
    }
  }

  /** A port that is missing or not an integer stops `initialize` before anything after it is assigned. */
  lemma PortFailureStopsEarly(g: Globals, logDirectory: string, cfg: Config, appName: Option<string>)
    ensures var s := InitializeSpec(g, logDirectory, cfg, appName);
      && (!IsPort(cfg, ServerPortOption) ==>
           && s.state == g.(config := Some(cfg))
           && s.outcome == Failed(PortError(cfg, ServerPortOption)))
      && (IsPort(cfg, ServerPortOption) && !IsPort(cfg, AgentPortOption) ==>
           && s.state == g.(config := Some(cfg), serverPort := Some(PortValue(cfg, ServerPortOption)))
           && s.outcome == Failed(PortError(cfg, AgentPortOption)))
  {
  }

  /**
   * After a successful `initialize`, an empty Views (or Tags) text leaves the list as it was and a
   * non-empty one is split at its commas; the list is never `[""]` unless it was before.
   */
  lemma ListsKeepDefaults(g: Globals, logDirectory: string, cfg: Config, appName: Option<string>)
    ensures var s := InitializeSpec(g, logDirectory, cfg, appName);
      s.outcome == Ready ==>
        var views := Text(cfg, AppSettingsSection, ViewsOption);
        var tags := Text(cfg, AppSettingsSection, TagsOption);
        && (views == "" ==> s.state.views == g.views)
        && (views != "" ==> s.state.views == CommaList.Split(views) && s.state.views != [""])
        && (tags == "" ==> s.state.tags == g.tags)
        && (tags != "" ==> s.state.tags == CommaList.Split(tags) && s.state.tags != [""])
  {
    InitializeReady(g, logDirectory, cfg, appName);
  }

  // ---------------------------------------------------------------------------
  // `save_settings`.

  /** Every global `save_settings` writes holds a value, as after a successful `initialize`. */
  predicate Loaded(g: Globals) {
    && g.serverPort.Some? && g.agentPort.Some? && g.logLevel.Some? && g.agentId.Some? && g.token.Some?
    && g.agentName.Some? && g.agentVersion.Some? && g.agentDescription.Some? && g.agentInstallDate.Some?
    && g.serverHostname.Some? && g.serverIpAddress.Some?
  }

  /** The options `save_settings` sets, in the source's order: nine in appSettings, four in agentInfo. */
  const SavedOptions: seq<(string, string)> := [
    (AppSettingsSection, TagsOption), (AppSettingsSection, ViewsOption), (AppSettingsSection, LogLevelOption),
    (AppSettingsSection, AgentPortOption), (AppSettingsSection, ServerPortOption),
    (AppSettingsSection, SavedIpAddressOption), (AppSettingsSection, SavedHostnameOption),
    (AppSettingsSection, TokenOption), (AppSettingsSection, AgentIdOption),
    (AgentInfoSection, NameOption), (AgentInfoSection, VersionOption),
    (AgentInfoSection, DescriptionOption), (AgentInfoSection, InstallDateOption)]

  /** The text each of those options is set to: lists joined with commas, ports through `str`. */
  function SavedValues(g: Globals): seq<string>
    requires Loaded(g)
  {
    [CommaList.Join(g.tags), CommaList.Join(g.views), g.logLevel.value,
     Decimal.ShowInt(g.agentPort.value), Decimal.ShowInt(g.serverPort.value),
     g.serverIpAddress.value, g.serverHostname.value, g.token.value, g.agentId.value,
     g.agentName.value, g.agentVersion.value, g.agentDescription.value, g.agentInstallDate.value]
  }

  /** The thirteen `_config.set` calls of `save_settings`. */
  function SavedWrites(g: Globals): seq<Write>
    requires Loaded(g)
  {
    seq(|SavedOptions|, i requires 0 <= i < |SavedOptions| => Write(SavedOptions[i].0, SavedOptions[i].1, SavedValues(g)[i]))
  }

  /** The configuration after the nine `_config.set` calls into appSettings, made in the source's order. */
  function SaveAppSettings(cfg: Config, g: Globals): Config
    requires Loaded(g)
  {
    var c1 := Set(cfg, AppSettingsSection, TagsOption, CommaList.Join(g.tags));
    var c2 := Set(c1, AppSettingsSection, ViewsOption, CommaList.Join(g.views));
    var c3 := Set(c2, AppSettingsSection, LogLevelOption, g.logLevel.value);
    var c4 := Set(c3, AppSettingsSection, AgentPortOption, Decimal.ShowInt(g.agentPort.value));
    var c5 := Set(c4, AppSettingsSection, ServerPortOption, Decimal.ShowInt(g.serverPort.value));
    var c6 := Set(c5, AppSettingsSection, SavedIpAddressOption, g.serverIpAddress.value);
    var c7 := Set(c6, AppSettingsSection, SavedHostnameOption, g.serverHostname.value);
    var c8 := Set(c7, AppSettingsSection, TokenOption, g.token.value);
    Set(c8, AppSettingsSection, AgentIdOption, g.agentId.value)
  }

  /** The configuration after the four `_config.set` calls into agentInfo. */
  function SaveAgentInfo(cfg: Config, g: Globals): Config
    requires Loaded(g)
  {
    var c1 := Set(cfg, AgentInfoSection, NameOption, g.agentName.value);
    var c2 := Set(c1, AgentInfoSection, VersionOption, g.agentVersion.value);
    var c3 := Set(c2, AgentInfoSection, DescriptionOption, g.agentDescription.value);
    Set(c3, AgentInfoSection, InstallDateOption, g.agentInstallDate.value)
  }

  /** The configuration after all thirteen `_config.set` calls of `save_settings`. */
  function SaveInto(cfg: Config, g: Globals): Config
    requires Loaded(g)
  {
    SaveAgentInfo(SaveAppSettings(cfg, g), g)
  }

  /**
   * `save_settings()` on the globals `g`: `set` raises NoSectionError at the first call into a
   * section the configuration lacks, after the calls before it have been made; the file is
   * written only when all thirteen calls succeed.
   */
  function Save(g: Globals): Step
    requires g.config.Some? && Loaded(g)
  {
    var cfg := g.config.value;
    if AppSettingsSection !in Sections(cfg) then
      Step(g, Failed(NoSection(AppSettingsSection)))
    else if AgentInfoSection !in Sections(SaveAppSettings(cfg, g)) then
      Step(g.(config := Some(SaveAppSettings(cfg, g))), Failed(NoSection(AgentInfoSection)))
    else
      Step(g.(config := Some(SaveInto(cfg, g))), Ready)
  }

  /** The appSettings calls leave appSettings present and create no agentInfo section. */
  lemma SaveAppSettingsSections(cfg: Config, g: Globals)
    requires Loaded(g)
    ensures AppSettingsSection in Sections(SaveAppSettings(cfg, g))
    ensures AgentInfoSection in Sections(SaveAppSettings(cfg, g)) <==> AgentInfoSection in Sections(cfg)
  {
    var c1 := Set(cfg, AppSettingsSection, TagsOption, CommaList.Join(g.tags));
    SetSections(cfg, AppSettingsSection, TagsOption, CommaList.Join(g.tags), AgentInfoSection);
    var c2 := Set(c1, AppSettingsSection, ViewsOption, CommaList.Join(g.views));
    SetSections(c1, AppSettingsSection, ViewsOption, CommaList.Join(g.views), AgentInfoSection);
    var c3 := Set(c2, AppSettingsSection, LogLevelOption, g.logLevel.value);
    SetSections(c2, AppSettingsSection, LogLevelOption, g.logLevel.value, AgentInfoSection);
    var c4 := Set(c3, AppSettingsSection, AgentPortOption, Decimal.ShowInt(g.agentPort.value));
    SetSections(c3, AppSettingsSection, AgentPortOption, Decimal.ShowInt(g.agentPort.value), AgentInfoSection);
    var c5 := Set(c4, AppSettingsSection, ServerPortOption, Decimal.ShowInt(g.serverPort.value));
    SetSections(c4, AppSettingsSection, ServerPortOption, Decimal.ShowInt(g.serverPort.value), AgentInfoSection);
    var c6 := Set(c5, AppSettingsSection, SavedIpAddressOption, g.serverIpAddress.value);
    SetSections(c5, AppSettingsSection, SavedIpAddressOption, g.serverIpAddress.value, AgentInfoSection);
    var c7 := Set(c6, AppSettingsSection, SavedHostnameOption, g.serverHostname.value);
    SetSections(c6, AppSettingsSection, SavedHostnameOption, g.serverHostname.value, AgentInfoSection);
    var c8 := Set(c7, AppSettingsSection, TokenOption, g.token.value);
    SetSections(c7, AppSettingsSection, TokenOption, g.token.value, AgentInfoSection);
    SetSections(c8, AppSettingsSection, AgentIdOption, g.agentId.value, AgentInfoSection);
  }

  /** ... and leave every agentInfo option as it was. */
  lemma SaveAppSettingsKeepsAgentInfo(cfg: Config, g: Globals)
    requires Loaded(g)
    ensures forall o :: Get(SaveAppSettings(cfg, g), AgentInfoSection, o) == Get(cfg, AgentInfoSection, o)
  {
    var c1 := Set(cfg, AppSettingsSection, TagsOption, CommaList.Join(g.tags));
    SetOtherSection(cfg, AppSettingsSection, TagsOption, CommaList.Join(g.tags), AgentInfoSection);
    var c2 := Set(c1, AppSettingsSection, ViewsOption, CommaList.Join(g.views));
    SetOtherSection(c1, AppSettingsSection, ViewsOption, CommaList.Join(g.views), AgentInfoSection);
    var c3 := Set(c2, AppSettingsSection, LogLevelOption, g.logLevel.value);
    SetOtherSection(c2, AppSettingsSection, LogLevelOption, g.logLevel.value, AgentInfoSection);
    var c4 := Set(c3, AppSettingsSection, AgentPortOption, Decimal.ShowInt(g.agentPort.value));
    SetOtherSection(c3, AppSettingsSection, AgentPortOption, Decimal.ShowInt(g.agentPort.value), AgentInfoSection);
    var c5 := Set(c4, AppSettingsSection, ServerPortOption, Decimal.ShowInt(g.serverPort.value));
    SetOtherSection(c4, AppSettingsSection, ServerPortOption, Decimal.ShowInt(g.serverPort.value), AgentInfoSection);
    var c6 := Set(c5, AppSettingsSection, SavedIpAddressOption, g.serverIpAddress.value);
    SetOtherSection(c5, AppSettingsSection, SavedIpAddressOption, g.serverIpAddress.value, AgentInfoSection);
    var c7 := Set(c6, AppSettingsSection, SavedHostnameOption, g.serverHostname.value);
    SetOtherSection(c6, AppSettingsSection, SavedHostnameOption, g.serverHostname.value, AgentInfoSection);
    var c8 := Set(c7, AppSettingsSection, TokenOption, g.token.value);
    SetOtherSection(c7, AppSettingsSection, TokenOption, g.token.value, AgentInfoSection);
    SetOtherSection(c8, AppSettingsSection, AgentIdOption, g.agentId.value, AgentInfoSection);
  }

  /**
   * `save_settings` completes exactly when the configuration has both sections; it raises
   * NoSectionError for appSettings having changed nothing, or for agentInfo having made the
   * nine appSettings calls; it never changes a global other than the configuration.
   */
  lemma SaveOutcomes(g: Globals)
    requires g.config.Some? && Loaded(g)
    ensures var cfg := g.config.value; var s := Save(g);
      && (s.outcome == Ready <==> AppSettingsSection in Sections(cfg) && AgentInfoSection in Sections(cfg))
      && (s.outcome.Failed? <==> s.outcome != Ready)
      && (AppSettingsSection !in Sections(cfg) ==> s == Step(g, Failed(NoSection(AppSettingsSection))))
      && (AppSettingsSection in Sections(cfg) && AgentInfoSection !in Sections(cfg) ==>
           && s.outcome == Failed(NoSection(AgentInfoSection))
           && s.state == g.(config := Some(SaveAppSettings(cfg, g)))
           && forall o :: Get(s.state.config.value, AgentInfoSection, o) == Get(cfg, AgentInfoSection, o))
      && (s.outcome == Ready ==> s.state == g.(config := Some(SaveInto(cfg, g))))
      && s.state.(config := g.config) == g
  {
    SaveAppSettingsSections(g.config.value, g);
    SaveAppSettingsKeepsAgentInfo(g.config.value, g);
  }

  /** After an `initialize` that succeeds, `save_settings` completes and writes every setting back. */
  lemma SaveAfterInitialize(g: Globals, logDirectory: string, cfg: Config, appName: Option<string>)
    ensures var s := InitializeSpec(g, logDirectory, cfg, appName);
      s.outcome == Ready ==>
        && s.state.config == Some(cfg) && Loaded(s.state)
        && Save(s.state) == Step(s.state.(config := Some(SaveInto(cfg, s.state))), Ready)
  {
    var s := InitializeSpec(g, logDirectory, cfg, appName);
    InitializeReady(g, logDirectory, cfg, appName);
    if s.outcome == Ready {
      GetHasSection(cfg, AppSettingsSection, LogLevelOption);
      GetHasSection(cfg, AgentInfoSection, NameOption);
      SaveOutcomes(s.state);
    }
  }

  /** `save_settings` is the run of `set` calls `SavedWrites`, taken one call at a time. */
  lemma SaveIntoIsSetAll(cfg: Config, g: Globals)
    requires Loaded(g)
    ensures SaveInto(cfg, g) == SetAll(cfg, SavedWrites(g))
  {
    var writes := SavedWrites(g);
    var c0 := cfg;
    var c1 := Set(c0, writes[0].section, writes[0].option, writes[0].value);
    SetAllStep(c0, writes, 0);
    var c2 := Set(c1, writes[1].section, writes[1].option, writes[1].value);
    SetAllStep(c1, writes, 1);
    var c3 := Set(c2, writes[2].section, writes[2].option, writes[2].value);
    SetAllStep(c2, writes, 2);
    var c4 := Set(c3, writes[3].section, writes[3].option, writes[3].value);
    SetAllStep(c3, writes, 3);
    var c5 := Set(c4, writes[4].section, writes[4].option, writes[4].value);
    SetAllStep(c4, writes, 4);
    var c6 := Set(c5, writes[5].section, writes[5].option, writes[5].value);
    SetAllStep(c5, writes, 5);
    var c7 := Set(c6, writes[6].section, writes[6].option, writes[6].value);
    SetAllStep(c6, writes, 6);
    var c8 := Set(c7, writes[7].section, writes[7].option, writes[7].value);
    SetAllStep(c7, writes, 7);
    var c9 := Set(c8, writes[8].section, writes[8].option, writes[8].value);
    SetAllStep(c8, writes, 8);
    var c10 := Set(c9, writes[9].section, writes[9].option, writes[9].value);
    SetAllStep(c9, writes, 9);
    var c11 := Set(c10, writes[10].section, writes[10].option, writes[10].value);
    SetAllStep(c10, writes, 10);
    var c12 := Set(c11, writes[11].section, writes[11].option, writes[11].value);
    SetAllStep(c11, writes, 11);
    var c13 := Set(c12, writes[12].section, writes[12].option, writes[12].value);
    SetAllStep(c12, writes, 12);
    assert writes[0..] == writes && writes[13..] == [];
  }

  /** The keys `save_settings` writes. */
  function SavedKeys(): set<(string, string)> {
    set i | 0 <= i < |SavedOptions| :: Key(SavedOptions[i].0, SavedOptions[i].1)
  }

  /** The key of each option name: the names are lower-case already, except the two address names `initialize` uses. */
  lemma KeysSpelledOut()
    ensures Key(AppSettingsSection, ServerPortOption) == (AppSettingsSection, ServerPortOption)
    ensures Key(AppSettingsSection, AgentPortOption) == (AppSettingsSection, AgentPortOption)
    ensures Key(AppSettingsSection, LogLevelOption) == (AppSettingsSection, LogLevelOption)
    ensures Key(AppSettingsSection, AgentIdOption) == (AppSettingsSection, AgentIdOption)
    ensures Key(AppSettingsSection, TokenOption) == (AppSettingsSection, TokenOption)
    ensures Key(AppSettingsSection, ViewsOption) == (AppSettingsSection, ViewsOption)
    ensures Key(AppSettingsSection, TagsOption) == (AppSettingsSection, TagsOption)
    ensures Key(AgentInfoSection, NameOption) == (AgentInfoSection, NameOption)
    ensures Key(AgentInfoSection, VersionOption) == (AgentInfoSection, VersionOption)
    ensures Key(AgentInfoSection, DescriptionOption) == (AgentInfoSection, DescriptionOption)
    ensures Key(AgentInfoSection, InstallDateOption) == (AgentInfoSection, InstallDateOption)
    ensures Key(AppSettingsSection, SavedHostnameOption) == (AppSettingsSection, SavedHostnameOption)
    ensures Key(AppSettingsSection, SavedIpAddressOption) == (AppSettingsSection, SavedIpAddressOption)
    ensures Key(AppSettingsSection, HostnameOption) == (AppSettingsSection, SavedHostnameOption)
    ensures Key(AppSettingsSection, IpAddressOption) == (AppSettingsSection, SavedIpAddressOption)
  {
    AddressKeysAgree();
    LowerOfLowerCase(ServerPortOption);
    LowerOfLowerCase(AgentPortOption);
    LowerOfLowerCase(LogLevelOption);
    LowerOfLowerCase(AgentIdOption);
    LowerOfLowerCase(TokenOption);
    LowerOfLowerCase(ViewsOption);
    LowerOfLowerCase(TagsOption);
    LowerOfLowerCase(NameOption);
    LowerOfLowerCase(VersionOption);
    LowerOfLowerCase(DescriptionOption);
    LowerOfLowerCase(InstallDateOption);
    LowerOfLowerCase(SavedHostnameOption);
    LowerOfLowerCase(SavedIpAddressOption);
  }

  /** `initialize` reads the addresses as `ServerHostname` and `ServerIpAddress`, the names `save_settings` writes in lower case. */
  lemma AddressKeysAgree()
    ensures Lower(HostnameOption) == SavedHostnameOption
    ensures Lower(IpAddressOption) == SavedIpAddressOption
  {
    assert forall i | 0 <= i < |HostnameOption| :: Lower(HostnameOption)[i] == SavedHostnameOption[i];
    assert forall i | 0 <= i < |IpAddressOption| :: Lower(IpAddressOption)[i] == SavedIpAddressOption[i];
  }

  /** The mixed-case address names have the keys of their lower-case spellings. */
  lemma AddressKeys()
    ensures Key(AppSettingsSection, HostnameOption) == Key(AppSettingsSection, SavedHostnameOption)
    ensures Key(AppSettingsSection, IpAddressOption) == Key(AppSettingsSection, SavedIpAddressOption)
  {
    AddressKeysAgree();
    LowerOfLowerCase(SavedHostnameOption);
    LowerOfLowerCase(SavedIpAddressOption);
  }

  /** The thirteen calls set thirteen different keys... */
  lemma SavedWritesDistinct(g: Globals)
    requires Loaded(g)
    ensures DistinctKeys(SavedWrites(g))
  {
    KeysSpelledOut();
  }

  /** ... namely `SavedKeys()`. */
  lemma SavedWritesKeys(g: Globals)
    requires Loaded(g)
    ensures WrittenKeys(SavedWrites(g)) == SavedKeys()
  {
    var writes := SavedWrites(g);
    forall k | k in SavedKeys() ensures k in WrittenKeys(writes) {
      var i :| 0 <= i < |SavedOptions| && k == Key(SavedOptions[i].0, SavedOptions[i].1);
      assert k == KeyOf(writes[i]);
    }
  }

  /**
   * `save_settings` sets exactly the thirteen saved keys, each to the text of its global, and
   * leaves every other key as it was.
   */
  lemma SaveWrites(cfg: Config, g: Globals)
    requires Loaded(g)
    ensures SaveInto(cfg, g).Keys == cfg.Keys + SavedKeys()
    ensures |SavedKeys()| == 13
    ensures forall k :: k in cfg && k !in SavedKeys() ==> SaveInto(cfg, g)[k] == cfg[k]
    ensures forall i :: 0 <= i < |SavedOptions| ==>
      Get(SaveInto(cfg, g), SavedOptions[i].0, SavedOptions[i].1) == Some(SavedValues(g)[i])
  {
    var writes := SavedWrites(g);
    SaveIntoIsSetAll(cfg, g);
    SetAllKeys(cfg, writes);
    SavedWritesKeys(g);
    SavedWritesDistinct(g);
    WrittenKeysCount(writes);
    forall i | 0 <= i < |SavedOptions|
      ensures Get(SaveInto(cfg, g), SavedOptions[i].0, SavedOptions[i].1) == Some(SavedValues(g)[i])
    {
      SetAllGet(cfg, writes, i);
    }
  }

  /** Each option `save_settings` sets, named: it reads back as the text of its global. */
  lemma SaveSetsEachOption(cfg: Config, g: Globals)
    requires Loaded(g)
    ensures var r := SaveInto(cfg, g);
      && Get(r, AppSettingsSection, TagsOption) == Some(CommaList.Join(g.tags))
      && Get(r, AppSettingsSection, ViewsOption) == Some(CommaList.Join(g.views))
      && Get(r, AppSettingsSection, LogLevelOption) == Some(g.logLevel.value)
      && Get(r, AppSettingsSection, AgentPortOption) == Some(Decimal.ShowInt(g.agentPort.value))
      && Get(r, AppSettingsSection, ServerPortOption) == Some(Decimal.ShowInt(g.serverPort.value))
      && Get(r, AppSettingsSection, SavedIpAddressOption) == Some(g.serverIpAddress.value)
      && Get(r, AppSettingsSection, SavedHostnameOption) == Some(g.serverHostname.value)
      && Get(r, AppSettingsSection, TokenOption) == Some(g.token.value)
      && Get(r, AppSettingsSection, AgentIdOption) == Some(g.agentId.value)
      && Get(r, AgentInfoSection, NameOption) == Some(g.agentName.value)
      && Get(r, AgentInfoSection, VersionOption) == Some(g.agentVersion.value)
      && Get(r, AgentInfoSection, DescriptionOption) == Some(g.agentDescription.value)
      && Get(r, AgentInfoSection, InstallDateOption) == Some(g.agentInstallDate.value)
      && Get(r, AppSettingsSection, HostnameOption) == Some(g.serverHostname.value)
      && Get(r, AppSettingsSection, IpAddressOption) == Some(g.serverIpAddress.value)
  {
    var r := SaveInto(cfg, g);
    SaveWrites(cfg, g);
    KeysSpelledOut();
    assert Get(r, SavedOptions[0].0, SavedOptions[0].1) == Some(SavedValues(g)[0]);
    assert Get(r, SavedOptions[1].0, SavedOptions[1].1) == Some(SavedValues(g)[1]);
    assert Get(r, SavedOptions[2].0, SavedOptions[2].1) == Some(SavedValues(g)[2]);
    assert Get(r, SavedOptions[3].0, SavedOptions[3].1) == Some(SavedValues(g)[3]);
    assert Get(r, SavedOptions[4].0, SavedOptions[4].1) == Some(SavedValues(g)[4]);
    assert Get(r, SavedOptions[5].0, SavedOptions[5].1) == Some(SavedValues(g)[5]);
    assert Get(r, SavedOptions[6].0, SavedOptions[6].1) == Some(SavedValues(g)[6]);
    assert Get(r, SavedOptions[7].0, SavedOptions[7].1) == Some(SavedValues(g)[7]);
    assert Get(r, SavedOptions[8].0, SavedOptions[8].1) == Some(SavedValues(g)[8]);
    assert Get(r, SavedOptions[9].0, SavedOptions[9].1) == Some(SavedValues(g)[9]);
    assert Get(r, SavedOptions[10].0, SavedOptions[10].1) == Some(SavedValues(g)[10]);
    assert Get(r, SavedOptions[11].0, SavedOptions[11].1) == Some(SavedValues(g)[11]);
    assert Get(r, SavedOptions[12].0, SavedOptions[12].1) == Some(SavedValues(g)[12]);
  }

  /**
   * Saving and then initialising again gives back every setting: the ports re-read as the same
   * integers, the lists as the same lists (an empty list comes back as whatever list the module
   * held, since an empty text keeps it), and ServerAddress is chosen from the saved addresses.
   */
  lemma SaveThenInitialize(g0: Globals, g: Globals, logDirectory: string, cfg: Config, appName: Option<string>)
    requires Loaded(g)
    requires CommaList.Storable(g.views) && CommaList.Storable(g.tags)
    requires g.serverHostname.value != "" || g.serverIpAddress.value != ""
    ensures var s := InitializeSpec(g0, logDirectory, SaveInto(cfg, g), appName).state;
      && InitializeSpec(g0, logDirectory, SaveInto(cfg, g), appName).outcome == Ready
      && s.serverPort == g.serverPort && s.agentPort == g.agentPort
      && s.logLevel == g.logLevel && s.agentId == g.agentId && s.token == g.token
      && s.views == (if g.views == [] then g0.views else g.views)
      && s.tags == (if g.tags == [] then g0.tags else g.tags)
      && s.agentName == g.agentName && s.agentVersion == g.agentVersion
      && s.agentDescription == g.agentDescription && s.agentInstallDate == g.agentInstallDate
      && s.serverHostname == g.serverHostname && s.serverIpAddress == g.serverIpAddress
      && s.serverAddress == Some(ResolveServerAddress(g.serverHostname.value, g.serverIpAddress.value))
  {
    var saved := SaveInto(cfg, g);
    SaveSetsEachOption(cfg, g);
    Decimal.ParseShow(g.serverPort.value);
    Decimal.ParseShow(g.agentPort.value);
    CommaList.DecodeJoin(g.views, g0.views);
    CommaList.DecodeJoin(g.tags, g0.tags);
    assert Complete(saved) && !NoServerAddress(saved);
    InitializeOutcomes(g0, logDirectory, saved, appName);
    InitializeReady(g0, logDirectory, saved, appName);
  }

  /** A configuration `initialize` accepts holds every key `save_settings` writes. */
  lemma SavedKeysPresent(cfg: Config)
    requires Complete(cfg)
    ensures SavedKeys() <= cfg.Keys
  {
    KeysSpelledOut();
    forall k | k in SavedKeys() ensures k in cfg {
      var i :| 0 <= i < |SavedOptions| && k == Key(SavedOptions[i].0, SavedOptions[i].1);
    }
  }

  /**
   * Initialising from a configuration and saving straight back changes nothing but the ports,
   * which are written back in `str` form (so `+8080` or `08080` becomes `8080`, by `Decimal.PortSpellings`); Views and Tags
   * come back as they were read when the lists started empty.
   */
  lemma InitializeThenSave(g: Globals, logDirectory: string, cfg: Config, appName: Option<string>)
    requires Complete(cfg)
    requires g.views == [] && g.tags == []
    ensures var saved := SaveInto(cfg, Configured(g, logDirectory, cfg, appName));
      && saved.Keys == cfg.Keys
      && (forall k :: k in cfg && k !in SavedKeys() ==> saved[k] == cfg[k])
      && Get(saved, AppSettingsSection, ServerPortOption) == Some(Decimal.ShowInt(PortValue(cfg, ServerPortOption)))
      && Get(saved, AppSettingsSection, AgentPortOption) == Some(Decimal.ShowInt(PortValue(cfg, AgentPortOption)))
      && Get(saved, AppSettingsSection, TagsOption) == Get(cfg, AppSettingsSection, TagsOption)
      && Get(saved, AppSettingsSection, ViewsOption) == Get(cfg, AppSettingsSection, ViewsOption)
      && Get(saved, AppSettingsSection, LogLevelOption) == Get(cfg, AppSettingsSection, LogLevelOption)
      && Get(saved, AppSettingsSection, HostnameOption) == Get(cfg, AppSettingsSection, HostnameOption)
      && Get(saved, AppSettingsSection, IpAddressOption) == Get(cfg, AppSettingsSection, IpAddressOption)
      && Get(saved, AppSettingsSection, TokenOption) == Get(cfg, AppSettingsSection, TokenOption)
      && Get(saved, AppSettingsSection, AgentIdOption) == Get(cfg, AppSettingsSection, AgentIdOption)
      && Get(saved, AgentInfoSection, NameOption) == Get(cfg, AgentInfoSection, NameOption)
      && Get(saved, AgentInfoSection, VersionOption) == Get(cfg, AgentInfoSection, VersionOption)
      && Get(saved, AgentInfoSection, DescriptionOption) == Get(cfg, AgentInfoSection, DescriptionOption)
      && Get(saved, AgentInfoSection, InstallDateOption) == Get(cfg, AgentInfoSection, InstallDateOption)
  {
    var s := Configured(g, logDirectory, cfg, appName);
    SaveWrites(cfg, s);
    SaveSetsEachOption(cfg, s);
    SavedKeysPresent(cfg);
    CommaList.JoinDecode(Text(cfg, AppSettingsSection, ViewsOption));
    CommaList.JoinDecode(Text(cfg, AppSettingsSection, TagsOption));
  }

  // ---------------------------------------------------------------------------
  // The module itself: its globals as the fields of one object.

  class SettingsStore {
    /** `os.getcwd()` when the module was imported; every derived path starts here. */
    const startingDirectory: string

    var config: Option<Config>
    var serverPort: Option<int>
    var agentPort: Option<int>
    var logLevel: Option<string>
    var agentId: Option<string>
    var token: Option<string>
    var views: seq<string>
    var tags: seq<string>
    var agentName: Option<string>
    var agentVersion: Option<string>
    var agentDescription: Option<string>
    var agentInstallDate: Option<string>
    var serverHostname: Option<string>
    var serverIpAddress: Option<string>
    var serverAddress: Option<string>
    var log: seq<LogEvent>

    function Snapshot(): Globals
      reads this
    {
      Globals(config, serverPort, agentPort, logLevel, agentId, token, views, tags,
              agentName, agentVersion, agentDescription, agentInstallDate,
              serverHostname, serverIpAddress, serverAddress, log)
    }

    /** Importing the module: every global at its initial value. */
    constructor(startingDirectory: string)
      ensures this.startingDirectory == startingDirectory
      ensures Snapshot() == ModuleDefaults()
    {
      this.startingDirectory := startingDirectory;
      config := None;
      serverPort := None;
      agentPort := None;
      logLevel := None;
      agentId := None;
      token := None;
      views := [];
      tags := [];
      agentName := None;
      agentVersion := None;
      agentDescription := None;
      agentInstallDate := None;
      serverHostname := None;
      serverIpAddress := None;
      serverAddress := None;
      log := [];
    }

    /** `ServerPort = int(...)`, then `AgentPort = int(...)`. */
    method LoadPorts(cfg: Config) returns (outcome: Outcome)
      modifies this
      ensures Step(Snapshot(), outcome) == Settle(ReadPorts(old(Snapshot()), cfg))
    {
      var raw := Get(cfg, AppSettingsSection, ServerPortOption);
      if raw.None? {
        return Failed(Missing(cfg, AppSettingsSection, ServerPortOption));
      }
      var port := Decimal.ParseInt(raw.value);
      if port.None? {
        return Failed(NotAnInteger(ServerPortOption, raw.value));
      }
      serverPort := port;
      raw := Get(cfg, AppSettingsSection, AgentPortOption);
      if raw.None? {
        return Failed(Missing(cfg, AppSettingsSection, AgentPortOption));
      }
      port := Decimal.ParseInt(raw.value);
      if port.None? {
        return Failed(NotAnInteger(AgentPortOption, raw.value));
      }
      agentPort := port;
      return Ready;
    }

    /** LogLevel, AgentId and Token. */
    method LoadStrings(cfg: Config) returns (outcome: Outcome)
      modifies this
      ensures Step(Snapshot(), outcome) == Settle(ReadStrings(old(Snapshot()), cfg))
    {
      var raw := Get(cfg, AppSettingsSection, LogLevelOption);
      if raw.None? {
        return Failed(Missing(cfg, AppSettingsSection, LogLevelOption));
      }
      logLevel := raw;
      raw := Get(cfg, AppSettingsSection, AgentIdOption);
      if raw.None? {
        return Failed(Missing(cfg, AppSettingsSection, AgentIdOption));
      }
      agentId := raw;
      raw := Get(cfg, AppSettingsSection, TokenOption);
      if raw.None? {
        return Failed(Missing(cfg, AppSettingsSection, TokenOption));
      }
      token := raw;
      return Ready;
    }

    /** Views and Tags: only a non-empty text replaces the list. */
    method LoadLists(cfg: Config) returns (outcome: Outcome)
      modifies this
      ensures Step(Snapshot(), outcome) == Settle(ReadLists(old(Snapshot()), cfg))
    {
      var loadedViews := Get(cfg, AppSettingsSection, ViewsOption);
      if loadedViews.None? {
        return Failed(Missing(cfg, AppSettingsSection, ViewsOption));
      }
      if loadedViews.value != "" {
        views := CommaList.Split(loadedViews.value);
      }
      var loadedTags := Get(cfg, AppSettingsSection, TagsOption);
      if loadedTags.None? {
        return Failed(Missing(cfg, AppSettingsSection, TagsOption));
      }
      if loadedTags.value != "" {
        tags := CommaList.Split(loadedTags.value);
      }
      return Ready;
    }

    /** AgentName, AgentVersion, AgentDescription and AgentInstallDate. */
    method LoadAgentInfo(cfg: Config) returns (outcome: Outcome)
      modifies this
      ensures Step(Snapshot(), outcome) == Settle(ReadAgentInfo(old(Snapshot()), cfg))
    {
      ghost var before := Snapshot();
      var raw := Get(cfg, AgentInfoSection, NameOption);
      if raw.None? {
        return Failed(Missing(cfg, AgentInfoSection, NameOption));
      }
      agentName := raw;
      assert Snapshot() == before.(agentName := raw);
      raw := Get(cfg, AgentInfoSection, VersionOption);
      if raw.None? {
        return Failed(Missing(cfg, AgentInfoSection, VersionOption));
      }
      agentVersion := raw;
      assert Snapshot() == before.(agentName := agentName, agentVersion := raw);
      raw := Get(cfg, AgentInfoSection, DescriptionOption);
      if raw.None? {
        return Failed(Missing(cfg, AgentInfoSection, DescriptionOption));
      }
      agentDescription := raw;
      assert Snapshot() == before.(agentName := agentName, agentVersion := agentVersion, agentDescription := raw);
      raw := Get(cfg, AgentInfoSection, InstallDateOption);
      if raw.None? {
        return Failed(Missing(cfg, AgentInfoSection, InstallDateOption));
      }
      agentInstallDate := raw;
      assert Snapshot() == before.(agentName := agentName, agentVersion := agentVersion,
                                   agentDescription := agentDescription, agentInstallDate := raw);
      return Ready;
    }

    /** Starts the logger, then looks the server addresses up and picks ServerAddress. */
    method StartAndResolve(cfg: Config, appName: Option<string>) returns (outcome: Outcome)
      requires logLevel.Some?
      modifies this
      ensures Step(Snapshot(), outcome) ==
        Settle(Finish(old(Snapshot()), cfg, AgentPaths.LogDirectory(startingDirectory), appName))
    {
      var name := EffectiveAppName(appName);
      log := log + [LoggerInit(name, AgentPaths.LogDirectory(startingDirectory), logLevel.value)];
      ghost var started := Snapshot();
      match GetServerAddresses(cfg)
      case Unreadable(e) =>
        return Failed(e);
      case Fatal(events, status) =>
        log := log + events;
        assert Snapshot() == started.(log := started.log + events);
        return Exit(status);
      case Found(hostname, ipAddress) =>
        serverHostname := Some(hostname);
        serverIpAddress := Some(ipAddress);
        if hostname != "" {
          serverAddress := Some(hostname);
        } else {
          serverAddress := Some(ipAddress);
        }
        assert Snapshot() == started.(serverHostname := Some(hostname), serverIpAddress := Some(ipAddress),
                                      serverAddress := Some(ResolveServerAddress(hostname, ipAddress)));
        return Ready;
    }

    /** `initialize(appName)` with `cfg` the parsed `agent.config`. */
    method Initialize(cfg: Config, appName: Option<string>) returns (outcome: Outcome)
      modifies this
      ensures Step(Snapshot(), outcome) ==
        InitializeSpec(old(Snapshot()), AgentPaths.LogDirectory(startingDirectory), cfg, appName)
    {
      config := Some(cfg);
      assert Snapshot() == old(Snapshot()).(config := Some(cfg));
      outcome := LoadPorts(cfg);
      if outcome != Ready {
        return;
      }
      outcome := LoadStrings(cfg);
      if outcome != Ready {
        return;
      }
      outcome := LoadLists(cfg);
      if outcome != Ready {
        return;
      }
      outcome := LoadAgentInfo(cfg);
      if outcome != Ready {
        return;
      }
      outcome := StartAndResolve(cfg, appName);
    }

    /** `save_settings()`: the thirteen `_config.set` calls; only the configuration changes. */
    method SaveSettings() returns (outcome: Outcome)
      requires config.Some? && Loaded(Snapshot())
      modifies this`config
      ensures Step(Snapshot(), outcome) == Save(old(Snapshot()))
    {
      var updated := config.value;
      if AppSettingsSection !in Sections(updated) {
        return Failed(NoSection(AppSettingsSection));
      }
      var joinedTags := CommaList.Join(tags);
      var joinedViews := CommaList.Join(views);
      updated := Set(updated, AppSettingsSection, TagsOption, joinedTags);
      updated := Set(updated, AppSettingsSection, ViewsOption, joinedViews);
      updated := Set(updated, AppSettingsSection, LogLevelOption, logLevel.value);
      updated := Set(updated, AppSettingsSection, AgentPortOption, Decimal.ShowInt(agentPort.value));
      updated := Set(updated, AppSettingsSection, ServerPortOption, Decimal.ShowInt(serverPort.value));
      updated := Set(updated, AppSettingsSection, SavedIpAddressOption, serverIpAddress.value);
      updated := Set(updated, AppSettingsSection, SavedHostnameOption, serverHostname.value);
      updated := Set(updated, AppSettingsSection, TokenOption, token.value);
      updated := Set(updated, AppSettingsSection, AgentIdOption, agentId.value);
      assert updated == SaveAppSettings(old(config.value), old(Snapshot()));
      config := Some(updated);
      if AgentInfoSection !in Sections(updated) {
        return Failed(NoSection(AgentInfoSection));
      }
      updated := Set(updated, AgentInfoSection, NameOption, agentName.value);
      updated := Set(updated, AgentInfoSection, VersionOption, agentVersion.value);
      updated := Set(updated, AgentInfoSection, DescriptionOption, agentDescription.value);
      updated := Set(updated, AgentInfoSection, InstallDateOption, agentInstallDate.value);
      config := Some(updated);
      outcome := Ready;
    }
  }
}
