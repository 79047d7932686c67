/**
 * The project picker (src/components/project-picker/project-picker-dialog.tsx):
 * lists the recent projects of the loaded settings, switches the working
 * directory and forgets a recent project.
 */
module ProjectPicker {
  import opened Base
  import opened Seqs
  import opened Types
  import opened Gateway
  import AppStore
  import SettingsStore
  import Settings

  class Picker {
    const app: AppStore.Store
    const settings: SettingsStore.Store
    /** The store actions and dialog closings, in order. */
    ghost var calls: seq<Call>

    constructor(app: AppStore.Store, settings: SettingsStore.Store)
      requires app != settings as object
      ensures this.app == app && this.settings == settings && calls == []
    {
      this.app := app;
      this.settings := settings;
      calls := [];
    }

    /** `config?.recent_projects ?? []`. */
    function RecentShown(): (r: seq<RecentProject>)
      reads this, settings
      ensures settings.config.Some? ==> r == settings.config.value.recentProjects
      ensures settings.config.None? ==> r == []
    {
      if settings.config.Some? then settings.config.value.recentProjects else []
    }

    /**
     * `selectProject(path)`: the working directory, then the settings, then
     * the status, and only then the dialog closes. The store actions catch
     * their own errors, so every step runs.
     */
    method SelectProject(path: string, reply: Reply<AppConfig>, read: Reply<AppConfig>,
                         version: Reply<string>, plugins: Reply<seq<Plugin>>)
      requires app != settings as object
      modifies this, app, settings
      ensures calls == old(calls) + [SetWorkingDirectory(path), LoadSettings, RefreshStatus, CloseDialog]
      ensures reply.Ok? ==> app.workingDir == reply.value.workingDirectory
      ensures reply.Err? ==> app.workingDir == old(app.workingDir)
      ensures read.Ok? ==> settings.config == Some(read.value)
      ensures read.Err? ==> settings.config == old(settings.config)
      ensures !app.isLoading && !settings.isLoading
      ensures app.isAsdfAvailable <==> version.Ok? && plugins.Ok?
      ensures version.Ok? && plugins.Ok? ==>
        app.asdfVersion == Some(version.value) && app.pluginCount == |plugins.value| && app.error == None
      ensures version.Err? ==>
        app.asdfVersion == old(app.asdfVersion) && app.pluginCount == old(app.pluginCount)
        && app.error == Some(version.error)
      ensures version.Ok? && plugins.Err? ==>
        app.asdfVersion == old(app.asdfVersion) && app.pluginCount == old(app.pluginCount)
        && app.error == Some(plugins.error)
      ensures RecentShown() == (if read.Ok? then read.value.recentProjects else old(RecentShown()))
      ensures app.calls == old(app.calls) + [SetWorkingDirectory(path), AsdfVersion]
                           + (if version.Ok? then [PluginList(false, false)] else [])
      ensures settings.calls == old(settings.calls) + [ReadConfig]
    {
      calls := calls + [SetWorkingDirectory(path)];
      app.SetWorkingDir(path, reply);
      calls := calls + [LoadSettings];
      settings.LoadSettings(read);
      calls := calls + [RefreshStatus];
      app.RefreshStatus(version, plugins);
      calls := calls + [CloseDialog];
    }

    /**
     * `removeRecent(path)`: nothing without a loaded config; otherwise the
     * config without that path's projects is written, then the settings are
     * reloaded. A failed write is handed back and reloads nothing.
     */
    method RemoveRecent(path: string, write: Done, read: Reply<AppConfig>) returns (r: Done)
      modifies this, settings
      ensures old(settings.config).None? ==>
        r.Pass? && calls == old(calls) && settings.config == old(settings.config)
      ensures old(settings.config).Some? ==>
        var written := old(settings.config).value.(recentProjects :=
          Settings.WithoutPath(old(settings.config).value.recentProjects, path));
        r == write
        && (write.Pass? ==> calls == old(calls) + [WriteConfig(written), LoadSettings])
        && (write.Fail? ==> calls == old(calls) + [WriteConfig(written)] && settings.config == old(settings.config))
        && (write.Pass? && read == Ok(written) ==> RecentShown() == Settings.WithoutPath(old(RecentShown()), path))
      ensures old(settings.config).Some? && write.Pass? ==>
        settings.config == (if read.Ok? then Some(read.value) else old(settings.config))
        && !settings.isLoading && settings.calls == old(settings.calls) + [ReadConfig]
      ensures old(settings.config).None? || write.Fail? ==>
        settings.isLoading == old(settings.isLoading) && settings.calls == old(settings.calls)
    {
      if settings.config.None? {
        return Pass;
      }
      var config := settings.config.value;
      var updated := config.(recentProjects := Settings.WithoutPath(config.recentProjects, path));
      calls := calls + [WriteConfig(updated)];
      if write.Fail? {
        return write;
      }
      calls := calls + [LoadSettings];
      settings.LoadSettings(read);
      return write;
    }
  }

  /**
   * The config `removeRecent` writes keeps every other field, and of the
   * recent projects exactly those with another path, in their order.
   */
  lemma RemoveRecentWritten(config: AppConfig, path: string)
    ensures var written := config.(recentProjects := Settings.WithoutPath(config.recentProjects, path));
      && written.(recentProjects := config.recentProjects) == config
      && IsSubsequence(written.recentProjects, config.recentProjects)
      && (forall p :: p in written.recentProjects <==> p in config.recentProjects && p.path != path)
  {
  }
}
