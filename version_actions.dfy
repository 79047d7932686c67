/**
 * The per-version actions of the versions page
 * (src/features/versions/use-version-actions.ts): set local / global,
 * uninstall and show path, with the single `actionKey` that marks the running
 * action and disables every action button while it is set.
 */
module VersionActions {
  import opened Base
  import opened Types
  import opened Gateway

  /** The label of a scope in the key and the messages: `local` or `global`. */
  function ScopeLabel(scope: SetScope): string
    requires scope == Local || scope == Home
  {
    if scope == Local then "local" else "global"
  }

  /** The key of a running set-version action: `${label}:${version}`. */
  function SetKey(scope: SetScope, version: string): string
    requires scope == Local || scope == Home
  {
    ScopeLabel(scope) + ":" + version
  }

  /** The key of a running uninstall: `uninstall:${version}`. */
  function UninstallKey(version: string): string {
    "uninstall:" + version
  }

  /**
   * The keys tell the actions apart: set-local, set-global and uninstall keys
   * never coincide, and each determines its version.
   */
  lemma KeysDistinct(v: string, w: string)
    ensures SetKey(Local, v) != SetKey(Home, w)
    ensures SetKey(Local, v) != UninstallKey(w) && SetKey(Home, v) != UninstallKey(w)
    ensures SetKey(Local, v) == SetKey(Local, w) ==> v == w
    ensures SetKey(Home, v) == SetKey(Home, w) ==> v == w
    ensures UninstallKey(v) == UninstallKey(w) ==> v == w
  {
    assert SetKey(Local, v)[0] == 'l' && SetKey(Home, w)[0] == 'g' && UninstallKey(w)[0] == 'u';
    assert SetKey(Home, v)[0] == 'g';
    assert SetKey(Local, v)[6..] == v && SetKey(Local, w)[6..] == w;
    assert SetKey(Home, v)[7..] == v && SetKey(Home, w)[7..] == w;
    assert UninstallKey(v)[10..] == v && UninstallKey(w)[10..] == w;
  }

  class Actions {
    var actionKey: Option<string>
    /** The gateway calls and reloads made so far, in order. */
    ghost var calls: seq<Call>

    constructor()
      ensures actionKey == None && calls == []
    {
      actionKey := None;
      calls := [];
    }

    /** The set / uninstall / show-path buttons of every installed version are enabled. */
    predicate ButtonsEnabled()
      reads this
    {
      actionKey.None?
    }

    /** `handleSetVersion` up to the gateway call: the key is held, the single version `[version]` sent. */
    method SetVersionBegin(plugin: string, version: string, scope: SetScope)
      requires scope == Local || scope == Home
      modifies this
      ensures actionKey == Some(SetKey(scope, version)) && !ButtonsEnabled()
      ensures calls == old(calls) + [SetVersion(plugin, [version], scope)]
    {
      actionKey := Some(SetKey(scope, version));
      calls := calls + [SetVersion(plugin, [version], scope)];
    }

    /** The rest of `handleSetVersion`: success awaits the reload of the plugin's data only; then the key is released. */
    method SetVersionEnd(plugin: string, result: Done)
      modifies this
      ensures actionKey == None && ButtonsEnabled()
      ensures result.Pass? ==> calls == old(calls) + [LoadPluginData(plugin)]
      ensures result.Fail? ==> calls == old(calls)
    {
      if result.Pass? {
        calls := calls + [LoadPluginData(plugin)];
      }
      actionKey := None;
    }

    /** `handleUninstall` up to the gateway call. */
    method UninstallBegin(plugin: string, version: string)
      modifies this
      ensures actionKey == Some(UninstallKey(version)) && !ButtonsEnabled()
      ensures calls == old(calls) + [UninstallVersion(plugin, version)]
    {
      actionKey := Some(UninstallKey(version));
      calls := calls + [UninstallVersion(plugin, version)];
    }

    /** The rest of `handleUninstall`: success awaits the reload of the plugin's data, then of the status; then the key is released. */
    method UninstallEnd(plugin: string, result: Done)
      modifies this
      ensures actionKey == None && ButtonsEnabled()
      ensures result.Pass? ==> calls == old(calls) + [LoadPluginData(plugin), RefreshStatus]
      ensures result.Fail? ==> calls == old(calls)
    {
      if result.Pass? {
        calls := calls + [LoadPluginData(plugin)];
        calls := calls + [RefreshStatus];
      }
      actionKey := None;
    }

    /** `handleShowPath`: only asks where the version is installed; the key is untouched. */
    method ShowPath(plugin: string, version: string)
      modifies this
      ensures actionKey == old(actionKey)
      ensures calls == old(calls) + [WhereInstalled(plugin, version)]
    {
      calls := calls + [WhereInstalled(plugin, version)];
    }
  }
}
