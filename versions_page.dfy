/**
 * The versions page (src/features/versions/versions-page.tsx): the selected
 * plugin's installed, available, current and latest versions, the install
 * session fed by the executor's events, and the cross-plugin latest overview.
 */
module VersionsPage {
  import opened Base
  import opened Seqs
  import opened Types
  import opened Gateway

  /** What the progress panel shows: `{ plugin, version }`. */
  datatype Target = Target(plugin: string, version: string)

  /** The line an event adds to the session's buffer: the text of `Stdout` and `Stderr`. */
  function EventLine(e: InstallEvent): Option<string> {
    if e.Finished? then None else Some(e.line)
  }

  /** The buffer a run of events produces, in arrival order. */
  function EventLines(events: seq<InstallEvent>): seq<string> {
    FilterMap(events, EventLine)
  }

  /** The line a gateway rejection adds: `Error: ${String(e)}`. */
  function ErrorLine(message: string): string {
    "Error: " + message
  }

  /**
   * How the executor reports an install: line events, possibly ending in one
   * `Finished`; the call is rejected exactly when no `Finished { success: true }`
   * came (a failed install, or a process that could not be run or awaited).
   */
  predicate ExecutorOrder(events: seq<InstallEvent>, rejection: Option<string>) {
    && (forall k :: 0 <= k < |events| - 1 ==> !events[k].Finished?)
    && (rejection.None? <==> Succeeded(events))
  }

  /** The run ended in `Finished { success: true }`. */
  predicate Succeeded(events: seq<InstallEvent>) {
    events != [] && events[|events| - 1] == Finished(true)
  }

  /** `vs.length > 0 ? vs[0].version : null`, with a failed fetch as `null`. */
  function FirstCurrent(current: Reply<seq<CurrentVersion>>): (r: Option<string>)
    ensures r.Some? <==> current.Ok? && current.value != []
    ensures r.Some? ==> r.value == current.value[0].version
  {
    if current.Ok? && |current.value| > 0 then Some(current.value[0].version) else None
  }

  /** The gateway calls `loadPluginData(name)` makes: none for an empty name. */
  function PluginDataCalls(name: string): seq<Call> {
    if name == [] then [] else [ListInstalled(name), CurrentVersions(Some(name)), LatestVersion(name), ListAll(name)]
  }

  /** Line events only append: the buffer of a longer run extends that of its prefix. */
  lemma EventLinesExtend(events: seq<InstallEvent>, i: nat)
    requires i < |events|
    ensures EventLines(events[..i + 1]) == EventLines(events[..i]) + OptList(EventLine(events[i]))
  {
    FilterMapStep(events, i, EventLine);
  }

  /** A run without `Finished` adds one line per event. */
  lemma {:induction false} LineEventsAllKept(events: seq<InstallEvent>)
    requires forall k :: 0 <= k < |events| ==> !events[k].Finished?
    ensures |EventLines(events)| == |events|
    ensures forall k :: 0 <= k < |events| ==> EventLines(events)[k] == events[k].line
    decreases |events|
  {
    if events != [] {
      var n := |events| - 1;
      LineEventsAllKept(events[..n]);
      assert events == events[..n] + [events[n]];
      FilterMapSnoc(events[..n], events[n], EventLine);
    }
  }

  class Page {
    var plugins: seq<Plugin>
    var selectedPlugin: string
    var installed: seq<string>
    var available: seq<string>
    var latestVersion: Option<string>
    var currentVersion: Option<string>
    var installedLoading: bool
    var availableLoading: bool
    var installTarget: Option<Target>
    var installLines: seq<string>
    var isInstalling: bool
    var latestData: seq<LatestInfo>
    var latestLoading: bool
    var latestInstallingKey: Option<string>
    /** The gateway calls and reloads made so far, in order. */
    ghost var calls: seq<Call>

    /** The page as first rendered, with the plugin named in the URL (or ""). */
    constructor(initialPlugin: string)
      ensures plugins == [] && selectedPlugin == initialPlugin
      ensures installed == [] && available == [] && latestVersion == None && currentVersion == None
      ensures !installedLoading && !availableLoading
      ensures installTarget == None && installLines == [] && !isInstalling
      ensures latestData == [] && latestLoading && latestInstallingKey == None && calls == []
    {
      plugins := [];
      selectedPlugin := initialPlugin;
      installed := [];
      available := [];
      latestVersion := None;
      currentVersion := None;
      installedLoading := false;
      availableLoading := false;
      installTarget := None;
      installLines := [];
      isInstalling := false;
      latestData := [];
      latestLoading := true;
      latestInstallingKey := None;
      calls := [];
    }

    /** The version whose install button spins: the target's, while its install runs. */
    function InstallingVersion(): (r: Option<string>)
      reads this
      ensures r.Some? <==> installTarget.Some? && isInstalling
      ensures r.Some? ==> r.value == installTarget.value.version
    {
      if installTarget.Some? && isInstalling then Some(installTarget.value.version) else None
    }

    /** The mount effect for the plugin selector: the list, or none when it fails. */
    method LoadPluginList(list: Reply<seq<Plugin>>)
      modifies this
      ensures plugins == list.GetOr([])
      ensures calls == old(calls) + [PluginList(false, false)]
      ensures selectedPlugin == old(selectedPlugin)
      ensures installed == old(installed) && available == old(available)
        && latestVersion == old(latestVersion) && currentVersion == old(currentVersion)
        && installedLoading == old(installedLoading) && availableLoading == old(availableLoading)
      ensures installTarget == old(installTarget) && installLines == old(installLines) && isInstalling == old(isInstalling)
      ensures latestData == old(latestData) && latestLoading == old(latestLoading)
        && latestInstallingKey == old(latestInstallingKey)
    {
      calls := calls + [PluginList(false, false)];
      plugins := list.GetOr([]);
    }

    /** The mount effect for the latest overview: the data, or none when it fails; loading then ends. */
    method LoadLatestOverview(latest: Reply<seq<LatestInfo>>)
      modifies this
      ensures latestData == latest.GetOr([]) && !latestLoading
      ensures calls == old(calls) + [LatestAll]
      ensures plugins == old(plugins) && selectedPlugin == old(selectedPlugin)
      ensures installed == old(installed) && available == old(available)
        && latestVersion == old(latestVersion) && currentVersion == old(currentVersion)
        && installedLoading == old(installedLoading) && availableLoading == old(availableLoading)
      ensures installTarget == old(installTarget) && installLines == old(installLines) && isInstalling == old(isInstalling)
      ensures latestInstallingKey == old(latestInstallingKey)
    {
      latestLoading := true;
      calls := calls + [LatestAll];
      latestData := latest.GetOr([]);
      latestLoading := false;
    }

    /**
     * `loadPluginData(name)` up to starting the slow `list all`: nothing for an
     * empty name; otherwise each of the three fetches fills its own field, a
     * failure degrading that field alone to `[]` or `null`.
     */
    method LoadPluginData(name: string, installedR: Reply<seq<string>>,
                          currentR: Reply<seq<CurrentVersion>>, latestR: Reply<string>)
      modifies this
      ensures calls == old(calls) + PluginDataCalls(name)
      ensures name == [] ==>
        installed == old(installed) && currentVersion == old(currentVersion)
        && latestVersion == old(latestVersion) && installedLoading == old(installedLoading)
        && availableLoading == old(availableLoading)
      ensures name != [] ==>
        installed == installedR.GetOr([]) && currentVersion == FirstCurrent(currentR)
        && latestVersion == latestR.ToOption() && !installedLoading && availableLoading
      ensures plugins == old(plugins) && selectedPlugin == old(selectedPlugin) && available == old(available)
      ensures installTarget == old(installTarget) && installLines == old(installLines) && isInstalling == old(isInstalling)
      ensures latestData == old(latestData) && latestLoading == old(latestLoading)
        && latestInstallingKey == old(latestInstallingKey)
    {
      if name != [] {
        installedLoading := true;
        availableLoading := true;
        calls := calls + [ListInstalled(name), CurrentVersions(Some(name)), LatestVersion(name)];
        installed := installedR.GetOr([]);
        currentVersion := FirstCurrent(currentR);
        latestVersion := latestR.ToOption();
        installedLoading := false;
        calls := calls + [ListAll(name)];
      }
    }

    /** The `list all` reply: fills `available` (`[]` on failure) and nothing else. */
    method AvailableLoaded(all: Reply<seq<string>>)
      modifies this
      ensures available == all.GetOr([]) && !availableLoading
      ensures calls == old(calls)
      ensures plugins == old(plugins) && selectedPlugin == old(selectedPlugin)
      ensures installed == old(installed) && latestVersion == old(latestVersion)
        && currentVersion == old(currentVersion) && installedLoading == old(installedLoading)
      ensures installTarget == old(installTarget) && installLines == old(installLines) && isInstalling == old(isInstalling)
      ensures latestData == old(latestData) && latestLoading == old(latestLoading)
        && latestInstallingKey == old(latestInstallingKey)
    {
      available := all.GetOr([]);
      availableLoading := false;
    }

    /**
     * `handleSelectPlugin`: selects and clears the install target. A new
     * selection starts the selection effect, whose run is `LoadPluginData`.
     */
    method HandleSelectPlugin(name: string)
      modifies this
      ensures selectedPlugin == name && installTarget == None
      ensures name != old(selectedPlugin) ==> calls == old(calls) + [Call.LoadPluginData(name)]
      ensures name == old(selectedPlugin) ==> calls == old(calls)
      ensures plugins == old(plugins)
      ensures installed == old(installed) && available == old(available)
        && latestVersion == old(latestVersion) && currentVersion == old(currentVersion)
        && installedLoading == old(installedLoading) && availableLoading == old(availableLoading)
      ensures installLines == old(installLines) && isInstalling == old(isInstalling)
      ensures latestData == old(latestData) && latestLoading == old(latestLoading)
        && latestInstallingKey == old(latestInstallingKey)
    {
      var previous := selectedPlugin;
      selectedPlugin := name;
      installTarget := None;
      if name != previous {
        calls := calls + [Call.LoadPluginData(name)];
      }
    }

    /** The start of `handleInstall(version)`: a fresh session for the selected plugin. */
    method HandleInstall(version: string)
      modifies this
      ensures installTarget == Some(Target(selectedPlugin, version))
      ensures installLines == [] && isInstalling
      ensures InstallingVersion() == Some(version)
      ensures calls == old(calls) + [InstallVersion(selectedPlugin, version)]
      ensures plugins == old(plugins) && selectedPlugin == old(selectedPlugin)
      ensures installed == old(installed) && available == old(available)
        && latestVersion == old(latestVersion) && currentVersion == old(currentVersion)
        && installedLoading == old(installedLoading) && availableLoading == old(availableLoading)
      ensures latestData == old(latestData) && latestLoading == old(latestLoading)
        && latestInstallingKey == old(latestInstallingKey)
    {
      installTarget := Some(Target(selectedPlugin, version));
      installLines := [];
      isInstalling := true;
      calls := calls + [InstallVersion(selectedPlugin, version)];
    }

    /**
     * The event callback of the session started for `plugin`: output lines
     * are appended; `Finished` ends the session, and only a success starts the
     * reloads (the plugin's data and the status, neither awaited, and the
     * latest overview, whose failure is ignored).
     */
    method OnInstallEvent(plugin: string, e: InstallEvent, latest: Reply<seq<LatestInfo>>)
      modifies this
      ensures installLines == old(installLines) + OptList(EventLine(e))
      ensures e.Finished? ==> !isInstalling
      ensures !e.Finished? ==> isInstalling == old(isInstalling)
      ensures e == Finished(true) ==>
        calls == old(calls) + [Call.LoadPluginData(plugin), RefreshStatus, LatestAll]
        && latestData == (if latest.Ok? then latest.value else old(latestData))
      ensures e != Finished(true) ==> calls == old(calls) && latestData == old(latestData)
      ensures plugins == old(plugins) && selectedPlugin == old(selectedPlugin)
      ensures installed == old(installed) && available == old(available)
        && latestVersion == old(latestVersion) && currentVersion == old(currentVersion)
        && installedLoading == old(installedLoading) && availableLoading == old(availableLoading)
      ensures installTarget == old(installTarget)
      ensures latestLoading == old(latestLoading) && latestInstallingKey == old(latestInstallingKey)
    {
      match e
      case Stdout(line) =>
        installLines := installLines + [line];
      case Stderr(line) =>
        installLines := installLines + [line];
      case Finished(success) =>
        isInstalling := false;
        if success {
          calls := calls + [Call.LoadPluginData(plugin), RefreshStatus, LatestAll];
          if latest.Ok? {
            latestData := latest.value;
          }
        }
    }

    /** The rejection of the install call: the session ends with one error line. */
    method InstallRejected(message: string)
      modifies this
      ensures !isInstalling && installLines == old(installLines) + [ErrorLine(message)]
      ensures calls == old(calls)
      ensures plugins == old(plugins) && selectedPlugin == old(selectedPlugin)
      ensures installed == old(installed) && available == old(available)
        && latestVersion == old(latestVersion) && currentVersion == old(currentVersion)
        && installedLoading == old(installedLoading) && availableLoading == old(availableLoading)
      ensures installTarget == old(installTarget)
      ensures latestData == old(latestData) && latestLoading == old(latestLoading)
        && latestInstallingKey == old(latestInstallingKey)
    {
      isInstalling := false;
      installLines := installLines + [ErrorLine(message)];
    }

    /**
     * A whole install of `version` as the executor reports it: the buffer holds
     * exactly the output lines in order, then the error line if rejected; the
     * session is over; and only a successful run triggers the reloads.
     */
    method Session(version: string, events: seq<InstallEvent>, rejection: Option<string>,
                   latest: Reply<seq<LatestInfo>>)
      requires ExecutorOrder(events, rejection)
      modifies this
      ensures installTarget == Some(Target(old(selectedPlugin), version)) && !isInstalling
      ensures InstallingVersion() == None
      ensures installLines == EventLines(events) + OptList(if rejection.Some? then Some(ErrorLine(rejection.value)) else None)
      ensures Succeeded(events) ==>
        calls == old(calls) + [InstallVersion(old(selectedPlugin), version),
                               Call.LoadPluginData(old(selectedPlugin)), RefreshStatus, LatestAll]
        && latestData == (if latest.Ok? then latest.value else old(latestData))
      ensures !Succeeded(events) ==>
        calls == old(calls) + [InstallVersion(old(selectedPlugin), version)] && latestData == old(latestData)
      ensures plugins == old(plugins) && selectedPlugin == old(selectedPlugin)
      ensures installed == old(installed) && available == old(available)
        && latestVersion == old(latestVersion) && currentVersion == old(currentVersion)
        && installedLoading == old(installedLoading) && availableLoading == old(availableLoading)
      ensures latestLoading == old(latestLoading) && latestInstallingKey == old(latestInstallingKey)
    {
      var plugin := selectedPlugin;
      HandleInstall(version);
      ghost var started := calls;
      for i := 0 to |events|
        invariant installLines == EventLines(events[..i])
        invariant isInstalling <==> !(i > 0 && events[i - 1].Finished?)
        invariant i < |events| || !Succeeded(events) ==> calls == started && latestData == old(latestData)
        invariant i == |events| && Succeeded(events) ==>
          calls == started + [Call.LoadPluginData(plugin), RefreshStatus, LatestAll]
          && latestData == (if latest.Ok? then latest.value else old(latestData))
        invariant installTarget == Some(Target(plugin, version)) && selectedPlugin == plugin
        invariant plugins == old(plugins)
        invariant installed == old(installed) && available == old(available)
          && latestVersion == old(latestVersion) && currentVersion == old(currentVersion)
          && installedLoading == old(installedLoading) && availableLoading == old(availableLoading)
        invariant latestLoading == old(latestLoading) && latestInstallingKey == old(latestInstallingKey)
      {
        EventLinesExtend(events, i);
        OnInstallEvent(plugin, events[i], latest);
      }
      assert events[..|events|] == events;
      if rejection.Some? {
        InstallRejected(rejection.value);
      }
    }

    /** The panel's close button, offered only once the install is no longer running. */
    method DismissProgress()
      requires !isInstalling
      modifies this
      ensures installTarget == None
      ensures calls == old(calls)
      ensures plugins == old(plugins) && selectedPlugin == old(selectedPlugin)
      ensures installed == old(installed) && available == old(available)
        && latestVersion == old(latestVersion) && currentVersion == old(currentVersion)
        && installedLoading == old(installedLoading) && availableLoading == old(availableLoading)
      ensures installLines == old(installLines) && isInstalling == old(isInstalling)
      ensures latestData == old(latestData) && latestLoading == old(latestLoading)
        && latestInstallingKey == old(latestInstallingKey)
    {
      installTarget := None;
    }

    /** `handleInstallLatest` up to the install call: the overview row's key is held. */
    method InstallLatestBegin(name: string, version: string)
      modifies this
      ensures latestInstallingKey == Some(InstallKey(name, version))
      ensures calls == old(calls) + [InstallVersion(name, version)]
      ensures plugins == old(plugins) && selectedPlugin == old(selectedPlugin)
      ensures installed == old(installed) && available == old(available)
        && latestVersion == old(latestVersion) && currentVersion == old(currentVersion)
        && installedLoading == old(installedLoading) && availableLoading == old(availableLoading)
      ensures installTarget == old(installTarget) && installLines == old(installLines) && isInstalling == old(isInstalling)
      ensures latestData == old(latestData) && latestLoading == old(latestLoading)
    {
      latestInstallingKey := Some(InstallKey(name, version));
      calls := calls + [InstallVersion(name, version)];
    }

    /**
     * The rest of `handleInstallLatest`: after a successful install the
     * overview is re-fetched (`[]` on failure); when `name` is `captured`,
     * the plugin that was selected when the handler was called (its closure
     * keeps that value while the install runs), `loadPluginData` is awaited
     * for it, answered by `installedR`, `currentR` and `latestR`; then the
     * status is asked for. The key is released either way.
     */
    method InstallLatestEnd(captured: string, name: string, install: Done, latest: Reply<seq<LatestInfo>>,
                            installedR: Reply<seq<string>>, currentR: Reply<seq<CurrentVersion>>,
                            latestR: Reply<string>)
      modifies this
      ensures latestInstallingKey == None
      ensures install.Fail? ==> calls == old(calls) && latestData == old(latestData)
      ensures install.Pass? ==> latestData == latest.GetOr([])
      ensures install.Pass? && name == captured ==>
        calls == old(calls) + [LatestAll] + PluginDataCalls(name) + [RefreshStatus]
      ensures install.Pass? && name != captured ==>
        calls == old(calls) + [LatestAll, RefreshStatus]
      ensures install.Pass? && name == captured && name != [] ==>
        installed == installedR.GetOr([]) && currentVersion == FirstCurrent(currentR)
        && latestVersion == latestR.ToOption() && !installedLoading && availableLoading
      ensures !(install.Pass? && name == captured && name != []) ==>
        installed == old(installed) && currentVersion == old(currentVersion)
        && latestVersion == old(latestVersion) && installedLoading == old(installedLoading)
        && availableLoading == old(availableLoading)
      ensures plugins == old(plugins) && selectedPlugin == old(selectedPlugin) && available == old(available)
      ensures installTarget == old(installTarget) && installLines == old(installLines) && isInstalling == old(isInstalling)
      ensures latestLoading == old(latestLoading)
    {
      if install.Pass? {
        calls := calls + [LatestAll];
        latestData := latest.GetOr([]);
        if name == captured {
          LoadPluginData(captured, installedR, currentR, latestR);
        }
        calls := calls + [RefreshStatus];
      }
      latestInstallingKey := None;
    }
  }
}
