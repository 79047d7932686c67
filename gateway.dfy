/**
 * The front end's view of the backend (src/lib/commands.ts). Every gateway
 * call a handler makes, and every action it starts elsewhere, is recorded as
 * a `Call` in the `calls` trace of the page or store that makes it, so that contracts
 * can state which calls happen and in which order. What a call returns is a
 * parameter of the handler: a `Reply` that is either the value or the
 * rejection's message.
 */
module Gateway {
  import opened Base
  import opened Types

  /** A settled promise: the resolved value or the rejection's message. */
  type Reply<T> = Result<T, string>

  /** A settled promise without a value. */
  type Done = Outcome<string>

  datatype Call =
    // backend commands
    | AsdfVersion
    | AsdfInfoCall
    | PluginList(urls: bool, refs: bool)
    | PluginListAll
    | PluginAdd(name: string, gitUrl: Option<string>)
    | PluginRemove(name: string)
    | PluginUpdate(target: Option<string>, all: bool)
    | CurrentVersions(tool: Option<string>)
    | UninstallVersion(name: string, version: string)
    | SetVersion(name: string, versions: seq<string>, scope: SetScope)
    | LatestVersion(name: string)
    | LatestAll
    | ListInstalled(name: string)
    | ListAll(name: string)
    | WhereInstalled(name: string, version: string)
    | InstallVersion(name: string, version: string)
    | ReadToolVersions(path: string)
    | WriteToolVersions(path: string, entries: seq<ToolVersion>)
    | GetToolVersionsPath(scope: SetScope)
    | ReadConfig
    | WriteConfig(config: AppConfig)
    | SetWorkingDirectory(path: string)
    // actions started in another component (a store, a callback prop), and
    // reloads a handler starts without awaiting them
    | LoadPluginData(plugin: string)
    | RefreshStatus
    | LoadSettings
    | OnAddSuccess(plugin: string)
    | OnAdd(name: string, gitUrl: Option<string>)
    | CloseDialog

  /** The busy key of a running install: `${plugin}@${version}`. */
  function InstallKey(plugin: string, version: string): (key: string)
    ensures |key| == |plugin| + 1 + |version| && key[|plugin|] == '@'
    ensures key[..|plugin|] == plugin && key[|plugin| + 1..] == version
  {
    plugin + "@" + version
  }

  /** Two installs of '@'-free plugins hold the same key only for the same plugin and version. */
  lemma InstallKeyInjective(p1: string, v1: string, p2: string, v2: string)
    requires '@' !in p1 && '@' !in p2
    requires InstallKey(p1, v1) == InstallKey(p2, v2)
    ensures p1 == p2 && v1 == v2
  {
  }
}
