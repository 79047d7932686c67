/**
 * The add-plugin dialog state (src/hooks/use-add-plugin.ts): whether the
 * dialog is shown and the plugin registry it offers, fetched once. The
 * plugins page and the dashboard keep the same three fields and run the
 * same open handler inline; both are modelled with this class.
 */
module UseAddPlugin {
  import opened Base
  import opened Types
  import opened Gateway

  class AddPlugin {
    var showAddPlugin: bool
    var registry: seq<PluginRegistry>
    var registryLoading: bool
    /** The gateway calls and callbacks made so far, in order. */
    ghost var calls: seq<Call>

    constructor()
      ensures !showAddPlugin && registry == [] && !registryLoading && calls == []
    {
      showAddPlugin := false;
      registry := [];
      registryLoading := false;
      calls := [];
    }

    /**
     * `openAddPlugin`, with `fetch` the registry reply: the dialog is always
     * shown; the registry is fetched only while it is empty, and a failed
     * fetch leaves it empty; loading has ended either way.
     */
    method OpenAddPlugin(fetch: Reply<seq<PluginRegistry>>)
      modifies this
      ensures showAddPlugin
      ensures old(registry) != [] ==>
        registry == old(registry) && registryLoading == old(registryLoading) && calls == old(calls)
      ensures old(registry) == [] ==>
        registry == fetch.GetOr([]) && !registryLoading && calls == old(calls) + [PluginListAll]
    {
      showAddPlugin := true;
      if |registry| == 0 {
        registryLoading := true;
        calls := calls + [PluginListAll];
        if fetch.Ok? {
          registry := fetch.value;
        }
        registryLoading := false;
      }
    }

    /** `setShowAddPlugin`, the dialog's `onOpenChange`. */
    method SetShowAddPlugin(show: bool)
      modifies this
      ensures showAddPlugin == show
      ensures registry == old(registry) && registryLoading == old(registryLoading) && calls == old(calls)
    {
      showAddPlugin := show;
    }

    /**
     * `addPlugin(name, gitUrl)`, with `add` the gateway's outcome and
     * `onSuccessResult` that of the awaited `onSuccess` callback: the callback
     * (when given) runs only after the add succeeded, and whichever of the two
     * rejects first is handed back to the caller.
     */
    method Add(name: string, gitUrl: Option<string>, add: Done, hasOnSuccess: bool, onSuccessResult: Done)
      returns (r: Done)
      modifies this
      ensures r == (if add.Fail? then add else if hasOnSuccess then onSuccessResult else Pass)
      ensures add.Pass? && hasOnSuccess ==> calls == old(calls) + [PluginAdd(name, gitUrl), OnAddSuccess(name)]
      ensures add.Fail? || !hasOnSuccess ==> calls == old(calls) + [PluginAdd(name, gitUrl)]
      ensures showAddPlugin == old(showAddPlugin) && registry == old(registry)
        && registryLoading == old(registryLoading)
    {
      calls := calls + [PluginAdd(name, gitUrl)];
      if add.Fail? {
        return add;
      }
      if hasOnSuccess {
        calls := calls + [OnAddSuccess(name)];
        return onSuccessResult;
      }
      return Pass;
    }
  }
}
