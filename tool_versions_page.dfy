/**
 * The `.tool-versions` page (src/features/tool-versions/tool-versions-page.tsx):
 * which file is open, its entries, the dirty and busy flags, and the
 * installed-plugin data the editor validates against.
 */
module ToolVersionsPage {
  import opened Base
  import opened Text
  import opened Seqs
  import opened Types
  import opened Gateway
  import opened ToolVersionsEditor

  /** The three tabs of the page. */
  datatype Tab = LocalTab | HomeTab | CustomTab

  /** The names of the listed plugins: `new Set(list.map((p) => p.name))`. */
  function Names(list: seq<Plugin>): (s: set<string>)
    ensures forall n :: n in s <==> exists k :: 0 <= k < |list| && list[k].name == n
  {
    set k | 0 <= k < |list| :: list[k].name
  }

  /** A plugin's installed versions as a set; a failed listing counts as none. */
  function InstalledSet(listed: Reply<seq<string>>): (s: set<string>)
    ensures listed.Err? ==> s == {}
    ensures listed.Ok? ==> forall v :: v in s <==> v in listed.value
  {
    if listed.Ok? then Elements(listed.value) else {}
  }

  /** `new Map(results)`: one set per listed plugin, a later name overriding an earlier one. */
  function VersionsMap(list: seq<Plugin>, listInstalled: string -> Reply<seq<string>>): map<string, set<string>>
    decreases |list|
  {
    if list == [] then map[]
    else
      var n := |list| - 1;
      VersionsMap(list[..n], listInstalled)[list[n].name := InstalledSet(listInstalled(list[n].name))]
  }

  /** One more plugin's listing: the map and the call trace both grow by that plugin. */
  lemma LoadStep(ps: seq<Plugin>, i: nat, listInstalled: string -> Reply<seq<string>>)
    requires i < |ps|
    ensures VersionsMap(ps[..i + 1], listInstalled)
         == VersionsMap(ps[..i], listInstalled)[ps[i].name := InstalledSet(listInstalled(ps[i].name))]
    ensures Map(ps[..i + 1], (p: Plugin) => ListInstalled(p.name))
         == Map(ps[..i], (p: Plugin) => ListInstalled(p.name)) + [ListInstalled(ps[i].name)]
  {
    assert ps[..i + 1][..i] == ps[..i];
    assert ps[..i + 1] == ps[..i] + [ps[i]];
    MapSnoc(ps[..i], ps[i], (p: Plugin) => ListInstalled(p.name));
  }

  /** The map has a set for exactly the listed plugins, each its own listing. */
  lemma {:induction false} VersionsMapSpec(list: seq<Plugin>, listInstalled: string -> Reply<seq<string>>)
    ensures VersionsMap(list, listInstalled).Keys == Names(list)
    ensures forall n :: n in VersionsMap(list, listInstalled) ==>
      VersionsMap(list, listInstalled)[n] == InstalledSet(listInstalled(n))
    decreases |list|
  {
    if list != [] {
      var n := |list| - 1;
      VersionsMapSpec(list[..n], listInstalled);
      forall name | name in Names(list) ensures name in Names(list[..n]) || name == list[n].name {
        var k :| 0 <= k < |list| && list[k].name == name;
        if k < n {
          assert list[..n][k].name == name;
        }
      }
      forall name | name in Names(list[..n]) ensures name in Names(list) {
        var k :| 0 <= k < n && list[..n][k].name == name;
        assert list[k].name == name;
      }
    }
  }

  /** Replacing one plugin's set leaves the validation of every other tool's entry unchanged. */
  lemma OtherEntriesKeepValidation(entry: ToolVersion, installedPlugins: set<string>,
                                   installedVersionsMap: map<string, set<string>>, plugin: string, s: set<string>)
    requires entry.tool != plugin
    ensures Validation(entry, installedPlugins, installedVersionsMap[plugin := s])
         == Validation(entry, installedPlugins, installedVersionsMap)
  {
  }

  /** Once a plugin's listing includes a version, a row for that version raises no warning. */
  lemma InstalledRowClears(plugin: string, version: string, installedPlugins: set<string>,
                           installedVersionsMap: map<string, set<string>>, listed: seq<string>)
    requires plugin in installedPlugins && version in listed
    ensures Validation(ToolVersion(plugin, [version]), installedPlugins,
                       installedVersionsMap[plugin := InstalledSet(Ok(listed))]) == []
  {
    var installed := InstalledSet(Ok(listed));
    assert [version][..0] == [];
    FilterStep([version], 0, (v: string) => v !in installed);
    assert [version][..1] == [version];
  }

  class Page {
    var entries: seq<ToolVersion>
    var filePath: Option<string>
    var isLoading: bool
    var isSaving: bool
    var isDirty: bool
    var plugins: seq<Plugin>
    var installedPlugins: set<string>
    var installedVersionsMap: map<string, set<string>>
    var installingKey: Option<string>
    /** The gateway calls made so far, in order. */
    ghost var calls: seq<Call>

    constructor()
      ensures entries == [] && filePath == None && !isLoading && !isSaving && !isDirty
      ensures plugins == [] && installedPlugins == {} && installedVersionsMap == map[]
      ensures installingKey == None && calls == []
    {
      entries := [];
      filePath := None;
      isLoading := false;
      isSaving := false;
      isDirty := false;
      plugins := [];
      installedPlugins := {};
      installedVersionsMap := map[];
      installingKey := None;
      calls := [];
    }

    /**
     * The mount effect: the plugin list, then every plugin's installed versions
     * (a failed listing counts as none). A failed plugin list changes nothing.
     */
    method LoadValidation(list: Reply<seq<Plugin>>, listInstalled: string -> Reply<seq<string>>)
      modifies this
      ensures list.Err? ==> 
        plugins == old(plugins) && installedPlugins == old(installedPlugins)
        && installedVersionsMap == old(installedVersionsMap)
        && calls == old(calls) + [PluginList(false, false)]
      ensures list.Ok? ==> 
        plugins == list.value && installedPlugins == Names(list.value)
        && installedVersionsMap == VersionsMap(list.value, listInstalled)
        && calls == old(calls) + [PluginList(false, false)]
                    + Map(list.value, (p: Plugin) => ListInstalled(p.name))
      ensures entries == old(entries) && filePath == old(filePath) && isLoading == old(isLoading)
        && isSaving == old(isSaving) && isDirty == old(isDirty) && installingKey == old(installingKey)
    {
      calls := calls + [PluginList(false, false)];
      if list.Err? {
        return;
      }
      var ps := list.value;
      ghost var fetches: seq<Call> := [];
      var results: map<string, set<string>> := map[];
      for i := 0 to |ps|
        invariant results == VersionsMap(ps[..i], listInstalled)
        invariant fetches == Map(ps[..i], (p: Plugin) => ListInstalled(p.name))
        modifies {}
      {
        fetches := fetches + [ListInstalled(ps[i].name)];
        var listed := listInstalled(ps[i].name);
        results := results[ps[i].name := InstalledSet(listed)];
        LoadStep(ps, i, listInstalled);
      }
      assert ps[..|ps|] == ps;
      plugins := ps;
      installedPlugins := Names(ps);
      calls := calls + fetches;
      installedVersionsMap := results;
    }

    /**
     * `loadFile(scope, path)`: the file is the scope's resolved path, else the
     * explicit non-empty path; with neither nothing is loaded. `resolved` and
     * `read` are the replies of path resolution and of the read.
     */
    method LoadFile(scope: Option<SetScope>, path: Option<string>, resolved: Reply<string>,
                    read: Reply<seq<ToolVersion>>)
      modifies this
      ensures !isDirty && !isLoading
      ensures scope.None? && (path.None? || path.value == []) ==>
        entries == old(entries) && filePath == old(filePath) && calls == old(calls)
      ensures scope.Some? && resolved.Err? ==>
        entries == [] && filePath == None && calls == old(calls) + [GetToolVersionsPath(scope.value)]
      ensures scope.Some? && resolved.Ok? ==>
        filePath == Some(resolved.value) && entries == read.GetOr([])
        && calls == old(calls) + [GetToolVersionsPath(scope.value), ReadToolVersions(resolved.value)]
      ensures scope.None? && path.Some? && path.value != [] ==>
        filePath == path && entries == read.GetOr([])
        && calls == old(calls) + [ReadToolVersions(path.value)]
      ensures isSaving == old(isSaving) && plugins == old(plugins) && installedPlugins == old(installedPlugins)
        && installedVersionsMap == old(installedVersionsMap) && installingKey == old(installingKey)
    {
      isLoading := true;
      isDirty := false;
      var resolvedPath: string;
      if scope.Some? {
        calls := calls + [GetToolVersionsPath(scope.value)];
        if resolved.Err? {
          filePath := None;
          entries := [];
          isLoading := false;
          return;
        }
        resolvedPath := resolved.value;
      } else if path.Some? && path.value != [] {
        resolvedPath := path.value;
      } else {
        isLoading := false;
        return;
      }
      filePath := Some(resolvedPath);
      calls := calls + [ReadToolVersions(resolvedPath)];
      entries := read.GetOr([]);
      isLoading := false;
    }

    /** The tab effect: the Local and Home tabs load their scope's file, the custom tab nothing. */
    method SelectTab(tab: Tab, resolved: Reply<string>, read: Reply<seq<ToolVersion>>)
      modifies this
      ensures tab == CustomTab ==> 
        entries == old(entries) && filePath == old(filePath)
        && isDirty == old(isDirty) && isLoading == old(isLoading) && calls == old(calls)
      ensures tab != CustomTab ==> !isDirty && !isLoading
      ensures tab != CustomTab ==> var scope := if tab == LocalTab then Local else Home;
        (resolved.Err? ==>
              entries == [] && filePath == None
              && calls == old(calls) + [GetToolVersionsPath(scope)])
        && (resolved.Ok? ==>
              filePath == Some(resolved.value) && entries == read.GetOr([])
              && calls == old(calls) + [GetToolVersionsPath(scope), ReadToolVersions(resolved.value)])
      ensures isSaving == old(isSaving) && plugins == old(plugins) && installedPlugins == old(installedPlugins)
        && installedVersionsMap == old(installedVersionsMap) && installingKey == old(installingKey)
    {
      if tab == LocalTab {
        LoadFile(Some(Local), None, resolved, read);
      } else if tab == HomeTab {
        LoadFile(Some(Home), None, resolved, read);
      }
    }

    /** `handleLoadCustom`: loads the trimmed custom path when it is not blank. */
    method HandleLoadCustom(customPath: string, read: Reply<seq<ToolVersion>>)
      modifies this
      ensures JsTrim(customPath) == [] ==> 
        entries == old(entries) && filePath == old(filePath)
        && isDirty == old(isDirty) && isLoading == old(isLoading) && calls == old(calls)
      ensures JsTrim(customPath) != [] ==>
        !isDirty && !isLoading && filePath == Some(JsTrim(customPath)) && entries == read.GetOr([])
        && calls == old(calls) + [ReadToolVersions(JsTrim(customPath))]
      ensures isSaving == old(isSaving) && plugins == old(plugins) && installedPlugins == old(installedPlugins)
        && installedVersionsMap == old(installedVersionsMap) && installingKey == old(installingKey)
    {
      var path := JsTrim(customPath);
      if path != [] {
        LoadFile(None, Some(path), Err(""), read);
      }
    }

    /** `handleChange`: every edit from the editor replaces the entries and marks them dirty. */
    method HandleChange(updated: seq<ToolVersion>)
      modifies this
      ensures entries == updated && isDirty
      ensures filePath == old(filePath) && isLoading == old(isLoading) && isSaving == old(isSaving)
        && plugins == old(plugins) && installedPlugins == old(installedPlugins)
        && installedVersionsMap == old(installedVersionsMap) && installingKey == old(installingKey)
        && calls == old(calls)
    {
      entries := updated;
      isDirty := true;
    }

    /** `handleSave`: writes the entries to the open file; only a successful write clears `isDirty`. */
    method HandleSave(write: Done)
      modifies this
      ensures filePath.None? || filePath.value == [] ==>
        isDirty == old(isDirty) && calls == old(calls) && isSaving == old(isSaving)
      ensures filePath.Some? && filePath.value != [] ==>
        calls == old(calls) + [WriteToolVersions(filePath.value, entries)]
        && isDirty == (old(isDirty) && write.Fail?) && !isSaving
      ensures entries == old(entries) && filePath == old(filePath) && isLoading == old(isLoading)
        && plugins == old(plugins) && installedPlugins == old(installedPlugins)
        && installedVersionsMap == old(installedVersionsMap) && installingKey == old(installingKey)
    {
      if filePath.None? || filePath.value == [] {
        return;
      }
      isSaving := true;
      calls := calls + [WriteToolVersions(filePath.value, entries)];
      if write.Pass? {
        isDirty := false;
      }
      isSaving := false;
    }

    /** `handleInstallVersion` up to the install call: the key is held. */
    method InstallBegin(plugin: string, version: string)
      modifies this
      ensures installingKey == Some(InstallKey(plugin, version))
      ensures calls == old(calls) + [InstallVersion(plugin, version)]
      ensures entries == old(entries) && filePath == old(filePath) && isLoading == old(isLoading)
        && isSaving == old(isSaving) && isDirty == old(isDirty) && plugins == old(plugins)
        && installedPlugins == old(installedPlugins) && installedVersionsMap == old(installedVersionsMap)
    {
      installingKey := Some(InstallKey(plugin, version));
      calls := calls + [InstallVersion(plugin, version)];
    }

    /**
     * The rest of `handleInstallVersion`, given the install's outcome and the
     * re-listing's reply: after a successful install only `plugin`'s set is
     * replaced; the key is released whatever happened.
     */
    method InstallEnd(plugin: string, install: Done, listed: Reply<seq<string>>)
      modifies this
      ensures installingKey == None
      ensures install.Fail? ==> installedVersionsMap == old(installedVersionsMap) && calls == old(calls)
      ensures install.Pass? ==>
        installedVersionsMap == old(installedVersionsMap)[plugin := InstalledSet(listed)]
        && calls == old(calls) + [ListInstalled(plugin)]
      ensures forall p :: p != plugin ==>
        (p in installedVersionsMap <==> p in old(installedVersionsMap))
        && (p in installedVersionsMap ==> installedVersionsMap[p] == old(installedVersionsMap)[p])
      ensures entries == old(entries) && filePath == old(filePath) && isLoading == old(isLoading)
        && isSaving == old(isSaving) && isDirty == old(isDirty) && plugins == old(plugins)
        && installedPlugins == old(installedPlugins)
    {
      if install.Pass? {
        calls := calls + [ListInstalled(plugin)];
        var versions := InstalledSet(listed);
        var next := installedVersionsMap;
        next := next[plugin := versions];
        installedVersionsMap := next;
      }
      installingKey := None;
    }
  }
}
