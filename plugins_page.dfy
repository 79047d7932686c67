/**
 * The plugins page (src/features/plugins/plugins-page.tsx): the installed
 * plugins with their URLs and refs, the per-plugin remove / update keys, the
 * update-all flag and the add-plugin dialog.
 */
module PluginsPage {
  import opened Base
  import opened Types
  import opened Gateway
  import opened UseAddPlugin

  class Page {
    var plugins: seq<Plugin>
    var isLoading: bool
    var removingKey: Option<string>
    var updatingKey: Option<string>
    var updatingAll: bool
    /** The dialog's `showAddPlugin`, `registry` and `registryLoading`. */
    const dialog: AddPlugin
    /** The gateway calls and reloads made so far, in order. */
    ghost var calls: seq<Call>

    constructor()
      ensures plugins == [] && isLoading && removingKey == None && updatingKey == None && !updatingAll
      ensures fresh(dialog) && !dialog.showAddPlugin && dialog.registry == [] && !dialog.registryLoading
      ensures calls == []
    {
      plugins := [];
      isLoading := true;
      removingKey := None;
      updatingKey := None;
      updatingAll := false;
      dialog := new AddPlugin();
      calls := [];
    }

    /** `loadPlugins`: the list with URLs and refs, or none when it fails; loading has ended. */
    method LoadPlugins(list: Reply<seq<Plugin>>)
      modifies this
      ensures plugins == list.GetOr([]) && !isLoading
      ensures calls == old(calls) + [PluginList(true, true)]
      ensures removingKey == old(removingKey) && updatingKey == old(updatingKey) && updatingAll == old(updatingAll)
    {
      calls := calls + [PluginList(true, true)];
      plugins := list.GetOr([]);
      isLoading := false;
    }

    /** `handleRemove(name)` up to the gateway call. */
    method RemoveBegin(name: string)
      modifies this
      ensures removingKey == Some(name)
      ensures calls == old(calls) + [PluginRemove(name)]
      ensures plugins == old(plugins) && isLoading == old(isLoading)
        && updatingKey == old(updatingKey) && updatingAll == old(updatingAll)
    {
      removingKey := Some(name);
      calls := calls + [PluginRemove(name)];
    }

    /**
     * The rest of `handleRemove`: success awaits `loadPlugins`, answered by
     * `reload`, then asks the status refresh; the key is released either way.
     */
    method RemoveEnd(result: Done, reload: Reply<seq<Plugin>>)
      modifies this
      ensures removingKey == None
      ensures result.Pass? ==>
        plugins == reload.GetOr([]) && !isLoading
        && calls == old(calls) + [PluginList(true, true), RefreshStatus]
      ensures result.Fail? ==> plugins == old(plugins) && isLoading == old(isLoading) && calls == old(calls)
      ensures updatingKey == old(updatingKey) && updatingAll == old(updatingAll)
    {
      if result.Pass? {
        LoadPlugins(reload);
        calls := calls + [RefreshStatus];
      }
      removingKey := None;
    }

    /** `handleUpdate(name)` up to the gateway call: `pluginUpdate(name)`, `all` defaulting to false. */
    method UpdateBegin(name: string)
      modifies this
      ensures updatingKey == Some(name)
      ensures calls == old(calls) + [PluginUpdate(Some(name), false)]
      ensures plugins == old(plugins) && isLoading == old(isLoading)
        && removingKey == old(removingKey) && updatingAll == old(updatingAll)
    {
      updatingKey := Some(name);
      calls := calls + [PluginUpdate(Some(name), false)];
    }

    /** The rest of `handleUpdate`: success awaits `loadPlugins`, answered by `reload`; the key is released. */
    method UpdateEnd(result: Done, reload: Reply<seq<Plugin>>)
      modifies this
      ensures updatingKey == None
      ensures result.Pass? ==>
        plugins == reload.GetOr([]) && !isLoading && calls == old(calls) + [PluginList(true, true)]
      ensures result.Fail? ==> plugins == old(plugins) && isLoading == old(isLoading) && calls == old(calls)
      ensures removingKey == old(removingKey) && updatingAll == old(updatingAll)
    {
      if result.Pass? {
        LoadPlugins(reload);
      }
      updatingKey := None;
    }

    /** `handleUpdateAll` up to the gateway call: `pluginUpdate(undefined, true)`. */
    method UpdateAllBegin()
      modifies this
      ensures updatingAll
      ensures calls == old(calls) + [PluginUpdate(None, true)]
      ensures plugins == old(plugins) && isLoading == old(isLoading)
        && removingKey == old(removingKey) && updatingKey == old(updatingKey)
    {
      updatingAll := true;
      calls := calls + [PluginUpdate(None, true)];
    }

    /** The rest of `handleUpdateAll`: success awaits `loadPlugins`, answered by `reload`; the flag ends. */
    method UpdateAllEnd(result: Done, reload: Reply<seq<Plugin>>)
      modifies this
      ensures !updatingAll
      ensures result.Pass? ==>
        plugins == reload.GetOr([]) && !isLoading && calls == old(calls) + [PluginList(true, true)]
      ensures result.Fail? ==> plugins == old(plugins) && isLoading == old(isLoading) && calls == old(calls)
      ensures removingKey == old(removingKey) && updatingKey == old(updatingKey)
    {
      if result.Pass? {
        LoadPlugins(reload);
      }
      updatingAll := false;
    }

    /** `handleOpenAddPlugin`: the same steps as `openAddPlugin`. */
    method OpenAddPlugin(fetch: Reply<seq<PluginRegistry>>)
      modifies dialog
      ensures dialog.showAddPlugin
      ensures old(dialog.registry) != [] ==>
        dialog.registry == old(dialog.registry) && dialog.registryLoading == old(dialog.registryLoading)
        && dialog.calls == old(dialog.calls)
      ensures old(dialog.registry) == [] ==>
        dialog.registry == fetch.GetOr([]) && !dialog.registryLoading
        && dialog.calls == old(dialog.calls) + [PluginListAll]
    {
      dialog.OpenAddPlugin(fetch);
    }

    /**
     * `handleAddPlugin(name, gitUrl)`: only after the add succeeded are the
     * plugins reloaded (answered by `reload`) and then the status asked for;
     * the add's error goes to the dialog.
     */
    method AddPlugin(name: string, gitUrl: Option<string>, add: Done, reload: Reply<seq<Plugin>>) returns (r: Done)
      modifies this
      ensures r == add
      ensures add.Pass? ==>
        plugins == reload.GetOr([]) && !isLoading
        && calls == old(calls) + [PluginAdd(name, gitUrl), PluginList(true, true), RefreshStatus]
      ensures add.Fail? ==>
        plugins == old(plugins) && isLoading == old(isLoading) && calls == old(calls) + [PluginAdd(name, gitUrl)]
      ensures removingKey == old(removingKey) && updatingKey == old(updatingKey) && updatingAll == old(updatingAll)
    {
      calls := calls + [PluginAdd(name, gitUrl)];
      if add.Fail? {
        return add;
      }
      LoadPlugins(reload);
      calls := calls + [RefreshStatus];
      return add;
    }
  }
}
