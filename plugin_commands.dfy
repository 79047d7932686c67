/**
 * The plugin commands (src-tauri/src/commands/plugin.rs): argument vectors for
 * `asdf plugin …`, run without a working directory with the configured binary.
 * `config` is the configuration as read and `run` the outcome of executing the
 * returned invocation; a command that runs nothing returns no invocation.
 */
module PluginCommands {
  import opened Base
  import opened Text
  import opened Seqs
  import opened Types
  import opened Parser
  import opened Commands

  function ListArgs(urls: bool, refs: bool): seq<string> {
    ["plugin", "list"] + (if urls then ["--urls"] else []) + (if refs then ["--refs"] else [])
  }

  /** `plugin_update`'s choice: `--all` when asked for, else the name, else nothing to run. */
  function UpdateArgs(name: Option<string>, all: bool): Option<seq<string>> {
    if all then Some(["plugin", "update", "--all"])
    else if name.Some? then Some(["plugin", "update", name.value])
    else None
  }

  /** `plugin_list(urls, refs)`, parsed. */
  method PluginList(config: Option<AppConfig>, urls: bool, refs: bool, run: Result<string, AppError>)
    returns (call: Invocation, r: Result<seq<Plugin>, AppError>)
    ensures call == Invocation(ListArgs(urls, refs), None, GetAsdfPath(config))
    ensures run.Err? ==> r == Err(run.error)
    ensures run.Ok? ==> r == Ok(FilterMap(Lines(run.value), PluginLine))
  {
    var asdfPath := GetAsdfPath(config);
    var args := ["plugin", "list"];
    if urls {
      args := args + ["--urls"];
    }
    assert args == ["plugin", "list"] + (if urls then ["--urls"] else []);
    if refs {
      args := args + ["--refs"];
    }
    call := Invocation(args, None, asdfPath);
    if run.Err? {
      return call, Err(run.error);
    }
    var parsed := ParsePluginList(run.value);
    r := Ok(parsed);
  }

  /** `plugin_list_all()`: the registry, parsed. */
  method PluginListAll(config: Option<AppConfig>, run: Result<string, AppError>)
    returns (call: Invocation, r: Result<seq<PluginRegistry>, AppError>)
    ensures call == Invocation(["plugin", "list", "all"], None, GetAsdfPath(config))
    ensures run.Err? ==> r == Err(run.error)
    ensures run.Ok? ==> r == Ok(FilterMap(Lines(run.value), RegistryLine))
  {
    call := Invocation(["plugin", "list", "all"], None, GetAsdfPath(config));
    if run.Err? {
      return call, Err(run.error);
    }
    var parsed := ParsePluginListAll(run.value);
    r := Ok(parsed);
  }

  /** `plugin_add(name, git_url)`. */
  method PluginAdd(config: Option<AppConfig>, name: string, gitUrl: Option<string>, run: Result<string, AppError>)
    returns (call: Invocation, r: Result<string, AppError>)
    ensures call == Invocation(["plugin", "add", name] + OptList(gitUrl), None, GetAsdfPath(config))
    ensures r == TrimmedOutput(run)
  {
    var asdfPath := GetAsdfPath(config);
    var args := ["plugin", "add", name];
    if gitUrl.Some? {
      args := args + [gitUrl.value];
    }
    call := Invocation(args, None, asdfPath);
    r := TrimmedOutput(run);
  }

  /** `plugin_remove(name)`. */
  method PluginRemove(config: Option<AppConfig>, name: string, run: Result<string, AppError>)
    returns (call: Invocation, r: Result<string, AppError>)
    ensures call == Invocation(["plugin", "remove", name], None, GetAsdfPath(config))
    ensures r == TrimmedOutput(run)
  {
    call := Invocation(["plugin", "remove", name], None, GetAsdfPath(config));
    r := TrimmedOutput(run);
  }

  /**
   * `plugin_update(name, all)`: with neither a name nor `all` it fails with a
   * parse error before running anything.
   */
  method PluginUpdate(config: Option<AppConfig>, name: Option<string>, all: bool, run: Result<string, AppError>)
    returns (call: Option<Invocation>, r: Result<string, AppError>)
    ensures call.None? <==> name.None? && !all
    ensures call.None? ==> r == Err(ParseError("either name or --all must be specified"))
    ensures call.Some? ==>
      call.value == Invocation(UpdateArgs(name, all).value, None, GetAsdfPath(config)) && r == TrimmedOutput(run)
  {
    var asdfPath := GetAsdfPath(config);
    var args;
    if all {
      args := ["plugin", "update", "--all"];
    } else if name.Some? {
      args := ["plugin", "update", name.value];
    } else {
      return None, Err(ParseError("either name or --all must be specified"));
    }
    call := Some(Invocation(args, None, asdfPath));
    r := TrimmedOutput(run);
  }

  // ---------------------------------------------------------------- properties

  /** Each flag is present exactly when asked for, `--urls` before `--refs`. */
  lemma ListArgsFlags(urls: bool, refs: bool)
    ensures var args := ListArgs(urls, refs);
      && args[..2] == ["plugin", "list"]
      && |args| == 2 + (if urls then 1 else 0) + (if refs then 1 else 0)
      && (urls <==> "--urls" in args)
      && (refs <==> "--refs" in args)
      && (urls && refs ==> args[2] == "--urls" && args[3] == "--refs")
  {
    var args := ListArgs(urls, refs);
    if !urls {
      assert forall k :: 0 <= k < |args| ==> args[k] != "--urls" by {
        assert args == ["plugin", "list"] + (if refs then ["--refs"] else []);
      }
    }
    if !refs {
      assert forall k :: 0 <= k < |args| ==> args[k] != "--refs" by {
        assert args == ["plugin", "list"] + (if urls then ["--urls"] else []);
      }
    }
  }

  /** With `all` set the name is ignored. */
  lemma UpdateAllIgnoresName(a: Option<string>, b: Option<string>)
    ensures UpdateArgs(a, true) == UpdateArgs(b, true) == Some(["plugin", "update", "--all"])
  {
  }
}
