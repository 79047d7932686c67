/**
 * The global application store (src/stores/app-store.ts): the working
 * directory and the detected `asdf` status shared by every page.
 */
module AppStore {
  import opened Base
  import opened Types
  import opened Gateway
  import Settings

  class Store {
    var workingDir: Option<string>
    var asdfVersion: Option<string>
    var pluginCount: nat
    var isAsdfAvailable: bool
    var isLoading: bool
    var error: Option<string>
    /** The gateway calls made so far, in order. */
    ghost var calls: seq<Call>

    /** The initial state: nothing known yet, and loading. */
    constructor()
      ensures workingDir == None && asdfVersion == None && pluginCount == 0
      ensures !isAsdfAvailable && isLoading && error == None && calls == []
    {
      workingDir := None;
      asdfVersion := None;
      pluginCount := 0;
      isAsdfAvailable := false;
      isLoading := true;
      error := None;
      calls := [];
    }

    /**
     * `setWorkingDir(dir)`, with `reply` the backend's answer: the working
     * directory is taken from the returned configuration; a failure records
     * the error and keeps the old directory.
     */
    method SetWorkingDir(dir: string, reply: Reply<AppConfig>)
      modifies this
      ensures reply.Ok? ==> workingDir == reply.value.workingDirectory && error == old(error)
      ensures reply.Err? ==> workingDir == old(workingDir) && error == Some(reply.error)
      ensures calls == old(calls) + [SetWorkingDirectory(dir)]
      ensures asdfVersion == old(asdfVersion) && pluginCount == old(pluginCount)
        && isAsdfAvailable == old(isAsdfAvailable) && isLoading == old(isLoading)
    {
      calls := calls + [SetWorkingDirectory(dir)];
      match reply
      case Ok(config) =>
        workingDir := config.workingDirectory;
      case Err(message) =>
        error := Some(message);
    }

    /**
     * `setWorkingDir(dir)` answered by the backend's `set_working_directory`:
     * whenever reading and writing the configuration succeed, the store's
     * working directory is `dir`. `describe` renders a backend error as text.
     */
    method SetWorkingDirThroughBackend(dir: string, read: Result<AppConfig, AppError>, now: nat,
                                       write: Outcome<AppError>, describe: AppError -> string)
      modifies this
      ensures read.Ok? && write.Pass? ==> workingDir == Some(dir) && error == old(error)
      ensures read.Err? ==> workingDir == old(workingDir) && error == Some(describe(read.error))
      ensures read.Ok? && write.Fail? ==> workingDir == old(workingDir) && error == Some(describe(write.error))
      ensures calls == old(calls) + [SetWorkingDirectory(dir)]
      ensures asdfVersion == old(asdfVersion) && pluginCount == old(pluginCount)
        && isAsdfAvailable == old(isAsdfAvailable) && isLoading == old(isLoading)
    {
      var r := Settings.SetWorkingDirectory(read, dir, now, write);
      var reply: Reply<AppConfig> := if r.Ok? then Ok(r.value) else Err(describe(r.error));
      SetWorkingDir(dir, reply);
    }

    /**
     * `refreshStatus`, with the replies of `asdfVersion` and of the plugin
     * list (asked only once the version is known). Success records both;
     * any failure marks `asdf` unavailable with the error and keeps the
     * previous version and count.
     */
    method RefreshStatus(version: Reply<string>, plugins: Reply<seq<Plugin>>)
      modifies this
      ensures !isLoading
      ensures version.Ok? && plugins.Ok? ==>
        asdfVersion == Some(version.value) && pluginCount == |plugins.value|
        && isAsdfAvailable && error == None
      ensures version.Err? ==>
        !isAsdfAvailable && error == Some(version.error)
        && asdfVersion == old(asdfVersion) && pluginCount == old(pluginCount)
      ensures version.Ok? && plugins.Err? ==>
        !isAsdfAvailable && error == Some(plugins.error)
        && asdfVersion == old(asdfVersion) && pluginCount == old(pluginCount)
      ensures version.Err? ==> calls == old(calls) + [AsdfVersion]
      ensures version.Ok? ==> calls == old(calls) + [AsdfVersion, PluginList(false, false)]
      ensures workingDir == old(workingDir)
    {
      isLoading := true;
      error := None;
      calls := calls + [AsdfVersion];
      if version.Err? {
        isAsdfAvailable := false;
        isLoading := false;
        error := Some(version.error);
        return;
      }
      calls := calls + [PluginList(false, false)];
      if plugins.Err? {
        isAsdfAvailable := false;
        isLoading := false;
        error := Some(plugins.error);
        return;
      }
      asdfVersion := Some(version.value);
      pluginCount := |plugins.value|;
      isAsdfAvailable := true;
      isLoading := false;
    }
  }
}
