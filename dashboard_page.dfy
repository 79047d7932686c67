/**
 * The dashboard (src/features/dashboard/dashboard-page.tsx): the `asdf info`
 * summary, the current versions with their install buttons, install-all, and
 * the add-plugin dialog.
 */
module DashboardPage {
  import opened Base
  import opened Seqs
  import opened Types
  import opened Gateway
  import opened UseAddPlugin

  /** `versions.filter((v) => !v.installed)`. */
  function Uninstalled(versions: seq<CurrentVersion>): seq<CurrentVersion> {
    Filter(versions, (v: CurrentVersion) => !v.installed)
  }

  /** `versions.some((v) => !v.installed)`, scanning from the front. */
  function HasUninstalled(versions: seq<CurrentVersion>): bool
    decreases |versions|
  {
    versions != [] && (!versions[0].installed || HasUninstalled(versions[1..]))
  }

  /**
   * Some entry is not installed exactly when `hasUninstalled` holds, which is
   * exactly when install-all has something to attempt.
   */
  lemma {:induction false} HasUninstalledSpec(versions: seq<CurrentVersion>)
    ensures HasUninstalled(versions) <==> exists k :: 0 <= k < |versions| && !versions[k].installed
    ensures HasUninstalled(versions) <==> Uninstalled(versions) != []
    decreases |versions|
  {
    if versions != [] {
      HasUninstalledSpec(versions[1..]);
      if !versions[0].installed {
        FilterMembers(versions, (v: CurrentVersion) => !v.installed, versions[0]);
      } else if HasUninstalled(versions[1..]) {
        var k :| 0 <= k < |versions[1..]| && !versions[1..][k].installed;
        assert !versions[k + 1].installed;
        FilterMembers(versions, (v: CurrentVersion) => !v.installed, versions[k + 1]);
      } else {
        forall k | 0 <= k < |versions| ensures versions[k].installed {
          if k > 0 {
            assert versions[k] == versions[1..][k - 1];
          }
        }
        if Uninstalled(versions) != [] {
          var u := Uninstalled(versions)[0];
          FilterMembers(versions, (v: CurrentVersion) => !v.installed, u);
          assert false;
        }
      }
    }
  }

  /** `info?.plugins.length ?? pluginCount`: the plugin count of `asdf info` when loaded. */
  function TotalVersions(info: Option<AsdfInfo>, pluginCount: nat): (n: nat)
    ensures info.Some? ==> n == |info.value.plugins|
    ensures info.None? ==> n == pluginCount
  {
    if info.Some? then |info.value.plugins| else pluginCount
  }

  /** The calls of `loadData`: `asdf info` and the current versions, side by side. */
  const LoadDataCalls: seq<Call> := [AsdfInfoCall, CurrentVersions(None)]

  /**
   * The calls of installing `us` one after the other, each with its outcome:
   * the install, then on success the data reload and the status refresh.
   */
  function InstallTrace(us: seq<CurrentVersion>, outcome: nat -> Done): seq<Call>
    decreases |us|
  {
    if us == [] then []
    else
      var n := |us| - 1;
      InstallTrace(us[..n], outcome) + [InstallVersion(us[n].name, us[n].version)]
      + (if outcome(n).Pass? then LoadDataCalls + [RefreshStatus] else [])
  }

  /** One more install extends the trace by its call and, on success, the reloads. */
  lemma InstallTraceStep(us: seq<CurrentVersion>, i: nat, outcome: nat -> Done)
    requires i < |us|
    ensures InstallTrace(us[..i + 1], outcome)
         == InstallTrace(us[..i], outcome) + [InstallVersion(us[i].name, us[i].version)]
            + (if outcome(i).Pass? then LoadDataCalls + [RefreshStatus] else [])
  {
    assert us[..i + 1][..i] == us[..i];
  }

  /** The last of the first `n` installs that succeeded, if any. */
  function LastPass(n: nat, outcome: nat -> Done): (r: Option<nat>)
    ensures r.Some? ==> r.value < n && outcome(r.value).Pass?
    ensures r.Some? ==> forall j :: r.value < j < n ==> outcome(j).Fail?
    ensures r.None? ==> forall j :: 0 <= j < n ==> outcome(j).Fail?
    decreases n
  {
    if n == 0 then None
    else if outcome(n - 1).Pass? then Some(n - 1)
    else LastPass(n - 1, outcome)
  }

  /** Whether a call is an install. */
  predicate IsInstall(c: Call) {
    c.InstallVersion?
  }

  /** The install call for a current-version entry. */
  function InstallOf(v: CurrentVersion): Call {
    InstallVersion(v.name, v.version)
  }

  /** The install calls in a trace, in order. */
  function Installs(calls: seq<Call>): seq<Call> {
    Filter(calls, IsInstall)
  }

  /** Install-all attempts every entry of `us` exactly once, in order, whatever fails. */
  lemma {:induction false} InstallsAttempted(us: seq<CurrentVersion>, outcome: nat -> Done)
    ensures Installs(InstallTrace(us, outcome)) == Map(us, InstallOf)
    decreases |us|
  {
    if us != [] {
      var n := |us| - 1;
      var front := InstallTrace(us[..n], outcome);
      var install := [InstallOf(us[n])];
      var reloads: seq<Call> := if outcome(n).Pass? then LoadDataCalls + [RefreshStatus] else [];
      assert InstallTrace(us, outcome) == front + install + reloads;
      calc {
        Installs(InstallTrace(us, outcome));
        Filter(front + install + reloads, IsInstall);
        { FilterAppend(front + install, reloads, IsInstall); }
        Filter(front + install, IsInstall) + Filter(reloads, IsInstall);
        { FilterKeepsNone(reloads, IsInstall); }
        Filter(front + install, IsInstall);
        { FilterAppend(front, install, IsInstall); }
        Filter(front, IsInstall) + Filter(install, IsInstall);
        { assert Filter(install, IsInstall) == install; }
        Filter(front, IsInstall) + install;
        { InstallsAttempted(us[..n], outcome); }
        Map(us[..n], InstallOf) + [InstallOf(us[n])];
        { MapSnoc(us[..n], us[n], InstallOf); }
        Map(us[..n] + [us[n]], InstallOf);
        { SplitLast([], us); }
        Map(us, InstallOf);
      }
    }
  }

  class Page {
    var info: Option<AsdfInfo>
    var versions: seq<CurrentVersion>
    var isLoading: bool
    var isRefreshing: bool
    var installingKey: Option<string>
    /** The dialog's `showAddPlugin`, `registry` and `registryLoading`. */
    const dialog: AddPlugin
    /** The gateway calls and reloads made so far, in order. */
    ghost var calls: seq<Call>

    constructor()
      ensures info == None && versions == [] && isLoading && !isRefreshing && installingKey == None
      ensures fresh(dialog) && !dialog.showAddPlugin && dialog.registry == [] && !dialog.registryLoading
      ensures calls == []
    {
      info := None;
      versions := [];
      isLoading := true;
      isRefreshing := false;
      installingKey := None;
      dialog := new AddPlugin();
      calls := [];
    }

    /**
     * `loadData`: info and current versions, each degrading on its own to
     * `null` or `[]`. The summary's plugin count then comes from `asdf info`,
     * or from the store's count when that call failed.
     */
    method LoadData(infoR: Reply<AsdfInfo>, versionsR: Reply<seq<CurrentVersion>>)
      modifies this
      ensures info == infoR.ToOption()
      ensures versions == versionsR.GetOr([]) && !isLoading
      ensures calls == old(calls) + LoadDataCalls
      ensures isRefreshing == old(isRefreshing) && installingKey == old(installingKey)
      ensures forall count: nat :: TotalVersions(info, count) == if infoR.Ok? then |infoR.value.plugins| else count
    {
      calls := calls + LoadDataCalls;
      info := infoR.ToOption();
      versions := versionsR.GetOr([]);
      isLoading := false;
    }

    /**
     * `handleRefresh`: the status refresh, then `loadData` answered by
     * `infoR` and `versionsR`; the refreshing flag has ended.
     */
    method HandleRefresh(infoR: Reply<AsdfInfo>, versionsR: Reply<seq<CurrentVersion>>)
      modifies this
      ensures !isRefreshing
      ensures calls == old(calls) + [RefreshStatus] + LoadDataCalls
      ensures info == infoR.ToOption() && versions == versionsR.GetOr([]) && !isLoading
      ensures installingKey == old(installingKey)
    {
      isRefreshing := true;
      calls := calls + [RefreshStatus];
      LoadData(infoR, versionsR);
      isRefreshing := false;
    }

    /** `handleInstall(name, version)` up to the install call. */
    method InstallBegin(name: string, version: string)
      modifies this
      ensures installingKey == Some(InstallKey(name, version))
      ensures calls == old(calls) + [InstallVersion(name, version)]
      ensures info == old(info) && versions == old(versions) && isLoading == old(isLoading)
        && isRefreshing == old(isRefreshing)
    {
      installingKey := Some(InstallKey(name, version));
      calls := calls + [InstallVersion(name, version)];
    }

    /**
     * The rest of `handleInstall`: success awaits `loadData`, answered by
     * `infoR` and `versionsR`, then asks the status refresh; the key is released.
     */
    method InstallEnd(result: Done, infoR: Reply<AsdfInfo>, versionsR: Reply<seq<CurrentVersion>>)
      modifies this
      ensures installingKey == None
      ensures result.Pass? ==>
        info == infoR.ToOption() && versions == versionsR.GetOr([]) && !isLoading
        && calls == old(calls) + LoadDataCalls + [RefreshStatus]
      ensures result.Fail? ==>
        info == old(info) && versions == old(versions) && isLoading == old(isLoading) && calls == old(calls)
      ensures isRefreshing == old(isRefreshing)
    {
      if result.Pass? {
        LoadData(infoR, versionsR);
        calls := calls + [RefreshStatus];
      }
      installingKey := None;
    }

    /**
     * `handleInstallAll`: installs the entries not installed when it starts,
     * one after the other; `outcome(i)` is the result of the `i`-th install
     * and `infoR(i)`, `versionsR(i)` answer the reload after it. A failure is
     * caught by `handleInstall`, so later ones still run, and the page ends
     * with the data of the last successful install's reload.
     */
    method HandleInstallAll(outcome: nat -> Done, infoR: nat -> Reply<AsdfInfo>,
                            versionsR: nat -> Reply<seq<CurrentVersion>>)
      modifies this
      ensures calls == old(calls) + InstallTrace(Uninstalled(old(versions)), outcome)
      ensures Uninstalled(old(versions)) != [] ==> installingKey == None
      ensures Uninstalled(old(versions)) == [] ==> installingKey == old(installingKey)
      ensures LastPass(|Uninstalled(old(versions))|, outcome).None? ==>
        info == old(info) && versions == old(versions) && isLoading == old(isLoading)
      ensures LastPass(|Uninstalled(old(versions))|, outcome).Some? ==>
        var last := LastPass(|Uninstalled(old(versions))|, outcome).value;
        info == infoR(last).ToOption() && versions == versionsR(last).GetOr([]) && !isLoading
      ensures isRefreshing == old(isRefreshing)
    {
      var uninstalled := Uninstalled(versions);
      ghost var info0, versions0, isLoading0 := info, versions, isLoading;
      for i := 0 to |uninstalled|
        invariant calls == old(calls) + InstallTrace(uninstalled[..i], outcome)
        invariant i > 0 ==> installingKey == None
        invariant i == 0 ==> installingKey == old(installingKey)
        invariant LastPass(i, outcome).None? ==>
          info == info0 && versions == versions0 && isLoading == isLoading0
        invariant LastPass(i, outcome).Some? ==>
          info == infoR(LastPass(i, outcome).value).ToOption()
          && versions == versionsR(LastPass(i, outcome).value).GetOr([]) && !isLoading
        invariant isRefreshing == old(isRefreshing)
      {
        var v := uninstalled[i];
        InstallBegin(v.name, v.version);
        InstallEnd(outcome(i), infoR(i), versionsR(i));
        InstallTraceStep(uninstalled, i, outcome);
      }
      assert uninstalled[..|uninstalled|] == uninstalled;
    }

    /** `handleOpenAddPlugin`: the same steps as `openAddPlugin`. */
    method OpenAddPlugin(fetch: Reply<seq<PluginRegistry>>)
      modifies dialog
      ensures dialog.showAddPlugin
      ensures old(dialog.registry) != [] ==>
        dialog.registry == old(dialog.registry) && dialog.registryLoading == old(dialog.registryLoading)
        && dialog.calls == old(dialog.calls)
      ensures old(dialog.registry) == [] ==>
        dialog.registry == fetch.GetOr([]) && !dialog.registryLoading
        && dialog.calls == old(dialog.calls) + [PluginListAll]
    {
      dialog.OpenAddPlugin(fetch);
    }

    /**
     * `handleAddPlugin`: the add, then the status refresh, then `loadData`
     * answered by `infoR` and `versionsR`; the add's error goes to the dialog.
     */
    method AddPlugin(name: string, gitUrl: Option<string>, add: Done,
                     infoR: Reply<AsdfInfo>, versionsR: Reply<seq<CurrentVersion>>) returns (r: Done)
      modifies this
      ensures r == add
      ensures add.Pass? ==>
        info == infoR.ToOption() && versions == versionsR.GetOr([]) && !isLoading
        && calls == old(calls) + [PluginAdd(name, gitUrl), RefreshStatus] + LoadDataCalls
      ensures add.Fail? ==>
        info == old(info) && versions == old(versions) && isLoading == old(isLoading)
        && calls == old(calls) + [PluginAdd(name, gitUrl)]
      ensures isRefreshing == old(isRefreshing) && installingKey == old(installingKey)
    {
      calls := calls + [PluginAdd(name, gitUrl)];
      if add.Fail? {
        return add;
      }
      calls := calls + [RefreshStatus];
      LoadData(infoR, versionsR);
      return add;
    }
  }
}
