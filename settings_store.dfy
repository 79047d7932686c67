/**
 * The settings store (src/stores/settings-store.ts): the application
 * configuration as last read, and the patch-and-write update.
 */
module SettingsStore {
  import opened Base
  import opened Types
  import opened Gateway

  /** A `Partial<AppConfig>`: a field is patched when present. */
  datatype Patch = Patch(
    language: Option<string>,
    theme: Option<string>,
    asdfBinaryPath: Option<Option<string>>,
    workingDirectory: Option<Option<string>>,
    keepDownloads: Option<bool>,
    notifications: Option<bool>,
    recentProjects: Option<seq<RecentProject>>)

  /** The patch with no field. */
  const NoChange: Patch := Patch(None, None, None, None, None, None, None)

  /** `patch.f ?? current.f` for one field. */
  function Pick<T>(patched: Option<T>, current: T): T {
    if patched.Some? then patched.value else current
  }

  /** `{ ...current, ...patch }`. */
  function Merge(current: AppConfig, patch: Patch): AppConfig {
    AppConfig(
      Pick(patch.language, current.language),
      Pick(patch.theme, current.theme),
      Pick(patch.asdfBinaryPath, current.asdfBinaryPath),
      Pick(patch.workingDirectory, current.workingDirectory),
      Pick(patch.keepDownloads, current.keepDownloads),
      Pick(patch.notifications, current.notifications),
      Pick(patch.recentProjects, current.recentProjects))
  }

  /** Patch `p`, then patch `q` over it: `q` wins wherever it has a field. */
  function Then(p: Patch, q: Patch): Patch {
    Patch(
      if q.language.Some? then q.language else p.language,
      if q.theme.Some? then q.theme else p.theme,
      if q.asdfBinaryPath.Some? then q.asdfBinaryPath else p.asdfBinaryPath,
      if q.workingDirectory.Some? then q.workingDirectory else p.workingDirectory,
      if q.keepDownloads.Some? then q.keepDownloads else p.keepDownloads,
      if q.notifications.Some? then q.notifications else p.notifications,
      if q.recentProjects.Some? then q.recentProjects else p.recentProjects)
  }

  /** The empty patch changes nothing, and applying a patch twice is applying it once. */
  lemma MergeIdentityIdempotent(current: AppConfig, patch: Patch)
    ensures Merge(current, NoChange) == current
    ensures Merge(Merge(current, patch), patch) == Merge(current, patch)
  {
  }

  /** Two updates in a row are one update with the combined patch. */
  lemma MergeThen(current: AppConfig, p: Patch, q: Patch)
    ensures Merge(Merge(current, p), q) == Merge(current, Then(p, q))
  {
  }

  class Store {
    var config: Option<AppConfig>
    var isLoading: bool
    /** The gateway calls made so far, in order. */
    ghost var calls: seq<Call>

    constructor()
      ensures config == None && isLoading && calls == []
    {
      config := None;
      isLoading := true;
      calls := [];
    }

    /** `loadSettings`: success replaces the config, failure keeps it; loading has ended. */
    method LoadSettings(read: Reply<AppConfig>)
      modifies this
      ensures read.Ok? ==> config == Some(read.value)
      ensures read.Err? ==> config == old(config)
      ensures !isLoading && calls == old(calls) + [ReadConfig]
    {
      isLoading := true;
      calls := calls + [ReadConfig];
      if read.Ok? {
        config := Some(read.value);
      }
      isLoading := false;
    }

    /**
     * `updateSettings(patch)`: nothing while no config is loaded; otherwise the
     * merged config is written, and stored only once the write succeeded. A
     * failed write is handed back to the caller.
     */
    method UpdateSettings(patch: Patch, write: Done) returns (r: Done)
      modifies this
      ensures old(config).None? ==> r.Pass? && config == None && calls == old(calls)
      ensures old(config).Some? ==>
        r == write && calls == old(calls) + [WriteConfig(Merge(old(config).value, patch))]
      ensures old(config).Some? && write.Pass? ==> config == Some(Merge(old(config).value, patch))
      ensures old(config).Some? && write.Fail? ==> config == old(config)
      ensures isLoading == old(isLoading)
    {
      if config.None? {
        return Pass;
      }
      var updated := Merge(config.value, patch);
      calls := calls + [WriteConfig(updated)];
      if write.Fail? {
        return write;
      }
      config := Some(updated);
      return write;
    }
  }
}
