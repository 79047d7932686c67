/**
 * The version commands (src-tauri/src/commands/version.rs): each builds an
 * argument vector by conditional pushes, picks the working directory and the
 * binary from the configuration, and parses or trims what the run printed.
 * `config` is the configuration as read (`None` when reading failed) and `run`
 * the outcome of executing the returned invocation.
 */
module VersionCommands {
  import opened Base
  import opened Text
  import opened Seqs
  import opened Types
  import opened Parser
  import opened Commands

  // ------------------------------------------------------------ argument shapes

  function CurrentArgs(name: Option<string>): seq<string> {
    ["current"] + OptList(name)
  }

  function InstallArgs(name: Option<string>, version: Option<string>, keepDownload: bool): seq<string> {
    ["install"] + OptList(name) + OptList(version) + (if keepDownload then ["--keep-download"] else [])
  }

  /** The flag that selects where `asdf set` records the version. */
  function ScopeFlag(scope: SetScope): seq<string> {
    match scope
    case Home => ["--home"]
    case Parent => ["--parent"]
    case Local => []
  }

  function SetArgs(name: string, versions: seq<string>, scope: SetScope): seq<string> {
    ["set"] + ScopeFlag(scope) + [name] + versions
  }

  /** `["latest", name]` or `["list", "all", name]` with the optional filter last. */
  function WithFilter(head: seq<string>, filter: Option<string>): seq<string> {
    head + OptList(filter)
  }

  function WhereArgs(name: string, version: Option<string>): seq<string> {
    ["where", name] + OptList(version)
  }

  // ------------------------------------------------------------------ commands

  /** `current(name)`: `asdf current [name]` in the configured directory, parsed. */
  method Current(config: Option<AppConfig>, name: Option<string>, run: Result<string, AppError>)
    returns (call: Invocation, r: Result<seq<CurrentVersion>, AppError>)
    ensures call == Invocation(CurrentArgs(name), GetConfig(config).1, GetConfig(config).0)
    ensures run.Err? ==> r == Err(run.error)
    ensures run.Ok? ==> r == Ok(FilterMap(Lines(run.value), CurrentLine))
  {
    var (asdfPath, cwd) := GetConfig(config);
    var args := ["current"];
    if name.Some? {
      args := args + [name.value];
    }
    call := Invocation(args, cwd, asdfPath);
    if run.Err? {
      return call, Err(run.error);
    }
    var parsed := ParseCurrent(run.value);
    r := Ok(parsed);
  }

  /**
   * `install(name, version, keep_download, cwd)`: the explicit directory wins
   * over the configured one; the streamed run's outcome is returned as is.
   */
  method Install(config: Option<AppConfig>, name: Option<string>, version: Option<string>,
                 keepDownload: bool, cwd: Option<string>, run: Outcome<AppError>)
    returns (call: Invocation, r: Outcome<AppError>)
    ensures call.args == InstallArgs(name, version, keepDownload)
    ensures cwd.Some? ==> call.cwd == cwd
    ensures cwd.None? ==> call.cwd == GetConfig(config).1
    ensures call.binary == GetConfig(config).0
    ensures r == run
  {
    var (asdfPath, defaultCwd) := GetConfig(config);
    var effectiveCwd := Or(cwd, defaultCwd);
    var args := ["install"];
    if name.Some? {
      args := args + [name.value];
    }
    if version.Some? {
      args := args + [version.value];
    }
    if keepDownload {
      args := args + ["--keep-download"];
    }
    call := Invocation(args, effectiveCwd, asdfPath);
    r := run;
  }

  /** `uninstall(name, version)`: runs without a working directory. */
  method Uninstall(config: Option<AppConfig>, name: string, version: string, run: Result<string, AppError>)
    returns (call: Invocation, r: Result<string, AppError>)
    ensures call == Invocation(["uninstall", name, version], None, GetAsdfPath(config))
    ensures r == TrimmedOutput(run)
  {
    var (asdfPath, _) := GetConfig(config);
    call := Invocation(["uninstall", name, version], None, asdfPath);
    r := TrimmedOutput(run);
  }

  /** `set_version(name, versions, scope)`, in the configured directory. */
  method SetVersion(config: Option<AppConfig>, name: string, versions: seq<string>, scope: SetScope,
                    run: Result<string, AppError>)
    returns (call: Invocation, r: Result<string, AppError>)
    ensures call == Invocation(SetArgs(name, versions, scope), GetConfig(config).1, GetConfig(config).0)
    ensures r == TrimmedOutput(run)
  {
    var (asdfPath, cwd) := GetConfig(config);
    var args := ["set"];
    match scope {
      case Home => args := args + ["--home"];
      case Parent => args := args + ["--parent"];
      case Local =>
    }
    assert args == ["set"] + ScopeFlag(scope);
    args := args + [name];
    args := args + versions;
    call := Invocation(args, cwd, asdfPath);
    r := TrimmedOutput(run);
  }

  /** `latest(name, filter)`. */
  method Latest(config: Option<AppConfig>, name: string, filter: Option<string>, run: Result<string, AppError>)
    returns (call: Invocation, r: Result<string, AppError>)
    ensures call == Invocation(WithFilter(["latest", name], filter), None, GetAsdfPath(config))
    ensures r == TrimmedOutput(run)
  {
    var (asdfPath, _) := GetConfig(config);
    var args := ["latest", name];
    if filter.Some? {
      args := args + [filter.value];
    }
    call := Invocation(args, None, asdfPath);
    r := TrimmedOutput(run);
  }

  /** `latest_all()`: `asdf latest --all`, parsed. */
  method LatestAll(config: Option<AppConfig>, run: Result<string, AppError>)
    returns (call: Invocation, r: Result<seq<LatestInfo>, AppError>)
    ensures call == Invocation(["latest", "--all"], None, GetAsdfPath(config))
    ensures run.Err? ==> r == Err(run.error)
    ensures run.Ok? ==> r == Ok(FilterMap(Lines(run.value), LatestLine))
  {
    var (asdfPath, _) := GetConfig(config);
    call := Invocation(["latest", "--all"], None, asdfPath);
    if run.Err? {
      return call, Err(run.error);
    }
    var parsed := ParseLatestAll(run.value);
    r := Ok(parsed);
  }

  /** `list_installed(name)`: the parsed versions in order, without the current marker. */
  method ListInstalled(config: Option<AppConfig>, name: string, run: Result<string, AppError>)
    returns (call: Invocation, r: Result<seq<string>, AppError>)
    ensures call == Invocation(["list", name], None, GetAsdfPath(config))
    ensures run.Err? ==> r == Err(run.error)
    ensures run.Ok? ==>
      var parsed := FilterMap(Lines(run.value), InstalledLine);
      && r.Ok? && |r.value| == |parsed|
      && forall k :: 0 <= k < |parsed| ==> r.value[k] == parsed[k].0
  {
    var (asdfPath, _) := GetConfig(config);
    call := Invocation(["list", name], None, asdfPath);
    if run.Err? {
      return call, Err(run.error);
    }
    var parsed := ParseListInstalled(run.value);
    r := Ok(Map(parsed, (p: (string, bool)) => p.0));
  }

  /** `list_all(name, filter)`: the trimmed non-empty lines. */
  method ListAll(config: Option<AppConfig>, name: string, filter: Option<string>, run: Result<string, AppError>)
    returns (call: Invocation, r: Result<seq<string>, AppError>)
    ensures call == Invocation(WithFilter(["list", "all", name], filter), None, GetAsdfPath(config))
    ensures run.Err? ==> r == Err(run.error)
    ensures run.Ok? ==> r == Ok(ParseListAll(run.value))
  {
    var (asdfPath, _) := GetConfig(config);
    var args := ["list", "all", name];
    if filter.Some? {
      args := args + [filter.value];
    }
    assert args == WithFilter(["list", "all", name], filter);
    call := Invocation(args, None, asdfPath);
    if run.Err? {
      return call, Err(run.error);
    }
    var versions := ParseListAll(run.value);
    r := Ok(versions);
  }

  /** `where_installed(name, version)`, in the configured directory. */
  method WhereInstalled(config: Option<AppConfig>, name: string, version: Option<string>, run: Result<string, AppError>)
    returns (call: Invocation, r: Result<string, AppError>)
    ensures call == Invocation(WhereArgs(name, version), GetConfig(config).1, GetConfig(config).0)
    ensures r == TrimmedOutput(run)
  {
    var (asdfPath, cwd) := GetConfig(config);
    var args := ["where", name];
    if version.Some? {
      args := args + [version.value];
    }
    call := Invocation(args, cwd, asdfPath);
    r := TrimmedOutput(run);
  }

  // ---------------------------------------------------------------- properties

  /** What `asdf set` reads back from its arguments: the scope flag, the tool, the versions. */
  function DecodeSet(args: seq<string>): Option<(string, seq<string>, SetScope)> {
    if |args| < 2 || args[0] != "set" then None
    else if args[1] == "--home" || args[1] == "--parent" then
      if |args| < 3 then None
      else Some((args[2], args[3..], if args[1] == "--home" then Home else Parent))
    else Some((args[1], args[2..], Local))
  }

  /** Unless the tool name itself looks like a scope flag, `set` arguments decode to what was asked. */
  lemma SetArgsDecode(name: string, versions: seq<string>, scope: SetScope)
    requires name != "--home" && name != "--parent"
    ensures DecodeSet(SetArgs(name, versions, scope)) == Some((name, versions, scope))
  {
    var args := SetArgs(name, versions, scope);
    match scope {
      case Home => assert args == ["set", "--home", name] + versions;
      case Parent => assert args == ["set", "--parent", name] + versions;
      case Local => assert args == ["set", name] + versions;
    }
  }

  /** A tool named like a flag is read as that flag: Local scope for "--home" decodes as Home. */
  lemma SetArgsFlagName(versions: seq<string>)
    ensures DecodeSet(SetArgs("--home", versions, Local)) != Some(("--home", versions, Local))
  {
    assert SetArgs("--home", versions, Local)[1] == "--home";
  }

  /**
   * An install with only a name and one with only a version build the same
   * command: the streamed install cannot tell which of the two was meant.
   */
  lemma InstallNameOrVersion(x: string, keepDownload: bool)
    ensures InstallArgs(Some(x), None, keepDownload) == InstallArgs(None, Some(x), keepDownload)
    ensures |InstallArgs(Some(x), None, keepDownload)| == if keepDownload then 3 else 2
  {
  }

  /** `--keep-download` is the last argument exactly when it was asked for, given a non-flag version. */
  lemma InstallKeepDownload(name: Option<string>, version: Option<string>, keepDownload: bool)
    requires version != Some("--keep-download")
    requires version.None? ==> name != Some("--keep-download")
    ensures var args := InstallArgs(name, version, keepDownload);
      keepDownload <==> args[|args| - 1] == "--keep-download"
  {
  }
}
