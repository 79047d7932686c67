/**
 * The `.tool-versions` table editor (src/features/tool-versions/tool-versions-editor.tsx):
 * the row edits, which build a new entry list and hand it to `onChange`, and
 * the per-entry validation against the installed plugins and versions.
 */
module ToolVersionsEditor {
  import opened Base
  import opened Text
  import opened Seqs
  import opened Types

  /** The two validation warnings, as kinds rather than translated messages. */
  datatype Warning = PluginNotInstalled | VersionNotInstalled

  // ------------------------------------------------------------------ row edits

  /**
   * `handleAddRow`: `None` when the trimmed tool or version is empty (nothing
   * is handed to `onChange`), otherwise the list with the new row appended.
   */
  function AddRow(entries: seq<ToolVersion>, newTool: string, newVersion: string): Option<seq<ToolVersion>> {
    if JsTrim(newTool) == [] || JsTrim(newVersion) == [] then None
    else Some(entries + [ToolVersion(JsTrim(newTool), [JsTrim(newVersion)])])
  }

  /** `handleRemoveRow`: `entries.filter((_, i) => i !== index)`. */
  function RemoveRow(entries: seq<ToolVersion>, index: int): seq<ToolVersion>
    decreases |entries|
  {
    if entries == [] then []
    else
      var n := |entries| - 1;
      RemoveRow(entries[..n], index) + (if n != index then [entries[n]] else [])
  }

  /** `handleUpdateTool`: the entry at `index` gets the new tool, its versions kept. */
  function UpdateTool(entries: seq<ToolVersion>, index: int, value: string): seq<ToolVersion> {
    seq(|entries|, i requires 0 <= i < |entries| => if i == index then entries[i].(tool := value) else entries[i])
  }

  /** `handleUpdateVersion`: the entry at `index` gets the single version `value`, unsplit. */
  function UpdateVersion(entries: seq<ToolVersion>, index: int, value: string): seq<ToolVersion> {
    seq(|entries|, i requires 0 <= i < |entries| => if i == index then entries[i].(versions := [value]) else entries[i])
  }

  /** A row is added exactly when both trimmed inputs are non-empty, at the end, trimmed. */
  lemma AddRowSpec(entries: seq<ToolVersion>, newTool: string, newVersion: string)
    ensures AddRow(entries, newTool, newVersion).None? <==> JsTrim(newTool) == [] || JsTrim(newVersion) == []
    ensures AddRow(entries, newTool, newVersion).Some? ==>
      var r := AddRow(entries, newTool, newVersion).value;
      |r| == |entries| + 1 && r[..|entries|] == entries
      && r[|entries|].tool == JsTrim(newTool) && r[|entries|].versions == [JsTrim(newVersion)]
  {
    if AddRow(entries, newTool, newVersion).Some? {
      var r := AddRow(entries, newTool, newVersion).value;
      assert r[..|entries|] == entries;
    }
  }

  /** Removing drops exactly the entry at `index`; an index out of range changes nothing. */
  lemma {:induction false} RemoveRowSpec(entries: seq<ToolVersion>, index: int)
    ensures 0 <= index < |entries| ==> RemoveRow(entries, index) == entries[..index] + entries[index + 1..]
    ensures !(0 <= index < |entries|) ==> RemoveRow(entries, index) == entries
    decreases |entries|
  {
    if entries != [] {
      var n := |entries| - 1;
      RemoveRowSpec(entries[..n], index);
      if index == n {
        assert entries[..index] + entries[index + 1..] == entries[..n];
      } else if 0 <= index < n {
        assert entries[..index] + entries[index + 1..] == (entries[..n][..index] + entries[..n][index + 1..]) + [entries[n]];
      } else {
        assert entries == entries[..n] + [entries[n]];
      }
    }
  }

  /** Removing the row just added gives the list back. */
  lemma RemoveAddedRow(entries: seq<ToolVersion>, newTool: string, newVersion: string)
    requires AddRow(entries, newTool, newVersion).Some?
    ensures RemoveRow(AddRow(entries, newTool, newVersion).value, |entries|) == entries
  {
    var r := AddRow(entries, newTool, newVersion).value;
    RemoveRowSpec(r, |entries|);
    assert r[..|entries|] == entries;
  }

  /** Editing a tool touches only that tool; writing the old tool back restores the list. */
  lemma UpdateToolSpec(entries: seq<ToolVersion>, index: int, value: string)
    ensures |UpdateTool(entries, index, value)| == |entries|
    ensures forall i :: 0 <= i < |entries| && i != index ==> UpdateTool(entries, index, value)[i] == entries[i]
    ensures 0 <= index < |entries| ==>
      UpdateTool(entries, index, value)[index] == ToolVersion(value, entries[index].versions)
      && UpdateTool(UpdateTool(entries, index, value), index, entries[index].tool) == entries
  {
  }

  /** Editing a version leaves one version at that entry and touches nothing else. */
  lemma UpdateVersionSpec(entries: seq<ToolVersion>, index: int, value: string)
    ensures |UpdateVersion(entries, index, value)| == |entries|
    ensures forall i :: 0 <= i < |entries| && i != index ==> UpdateVersion(entries, index, value)[i] == entries[i]
    ensures 0 <= index < |entries| ==>
      UpdateVersion(entries, index, value)[index] == ToolVersion(entries[index].tool, [value])
  {
  }

  /** The input fields of the add row. */
  class Editor {
    var newTool: string
    var newVersion: string

    constructor()
      ensures newTool == "" && newVersion == ""
    {
      newTool := "";
      newVersion := "";
    }

    /** `handleAddRow`: `change` is what `onChange` receives; the inputs clear only then. */
    method HandleAddRow(entries: seq<ToolVersion>) returns (change: Option<seq<ToolVersion>>)
      modifies this
      ensures change == AddRow(entries, old(newTool), old(newVersion))
      ensures change.Some? ==> newTool == "" && newVersion == ""
      ensures change.None? ==> newTool == old(newTool) && newVersion == old(newVersion)
    {
      if JsTrim(newTool) == [] || JsTrim(newVersion) == [] {
        return None;
      }
      var updated := entries + [ToolVersion(JsTrim(newTool), [JsTrim(newVersion)])];
      change := Some(updated);
      newTool := "";
      newVersion := "";
    }
  }

  // ----------------------------------------------------------------- validation

  /** The listed versions absent from `installed`, duplicates counted. */
  function Missing(versions: seq<string>, installed: set<string>): seq<string> {
    Filter(versions, (v: string) => v !in installed)
  }

  /** `n` copies of the version warning. */
  function VersionWarnings(n: nat): (r: seq<Warning>)
    ensures |r| == n && forall k :: 0 <= k < n ==> r[k] == VersionNotInstalled
  {
    seq(n, _ => VersionNotInstalled)
  }

  /**
   * What `getValidation` promises: a missing plugin gives exactly one plugin
   * warning; otherwise one version warning per listed version that the
   * plugin's installed set lacks, and none when the map has no set for it.
   */
  function Validation(entry: ToolVersion, installedPlugins: set<string>,
                      installedVersionsMap: map<string, set<string>>): seq<Warning> {
    if entry.tool !in installedPlugins then [PluginNotInstalled]
    else if entry.tool !in installedVersionsMap then []
    else VersionWarnings(|Missing(entry.versions, installedVersionsMap[entry.tool])|)
  }

  /** `getValidation(entry)`, pushing one warning per failing check. */
  method GetValidation(entry: ToolVersion, installedPlugins: set<string>,
                       installedVersionsMap: map<string, set<string>>) returns (warnings: seq<Warning>)
    ensures warnings == Validation(entry, installedPlugins, installedVersionsMap)
  {
    warnings := [];
    if entry.tool !in installedPlugins {
      warnings := warnings + [PluginNotInstalled];
    } else {
      var versions: Option<set<string>> :=
        if entry.tool in installedVersionsMap then Some(installedVersionsMap[entry.tool]) else None;
      for i := 0 to |entry.versions|
        invariant versions.None? ==> warnings == []
        invariant versions.Some? ==> warnings == VersionWarnings(|Missing(entry.versions[..i], versions.value)|)
      {
        var v := entry.versions[i];
        if versions.Some? {
          FilterStep(entry.versions, i, (v: string) => v !in versions.value);
          if v !in versions.value {
            warnings := warnings + [VersionNotInstalled];
          }
        }
      }
      assert entry.versions[..|entry.versions|] == entry.versions;
    }
  }

  /** The plugin warning comes alone, and exactly when the plugin is not installed. */
  lemma PluginWarningAlone(entry: ToolVersion, installedPlugins: set<string>,
                           installedVersionsMap: map<string, set<string>>)
    ensures var w := Validation(entry, installedPlugins, installedVersionsMap);
      (PluginNotInstalled in w <==> entry.tool !in installedPlugins)
      && (entry.tool !in installedPlugins ==> w == [PluginNotInstalled])
  {
  }

  /** Dropping the versions the plugin lacks leaves an installed plugin's entry warning-free. */
  lemma DropMissingClears(entry: ToolVersion, installedPlugins: set<string>,
                          installedVersionsMap: map<string, set<string>>)
    requires entry.tool in installedPlugins
    ensures var kept := if entry.tool in installedVersionsMap
              then Filter(entry.versions, (v: string) => v in installedVersionsMap[entry.tool])
              else entry.versions;
      Validation(entry.(versions := kept), installedPlugins, installedVersionsMap) == []
  {
    if entry.tool in installedVersionsMap {
      var installed := installedVersionsMap[entry.tool];
      var kept := Filter(entry.versions, (v: string) => v in installed);
      FilterAll(entry.versions, (v: string) => v in installed);
      NoneMissing(kept, installed);
    }
  }

  /** A list of installed versions misses nothing. */
  lemma {:induction false} NoneMissing(versions: seq<string>, installed: set<string>)
    requires forall k :: 0 <= k < |versions| ==> versions[k] in installed
    ensures Missing(versions, installed) == []
    decreases |versions|
  {
    if versions != [] {
      NoneMissing(versions[..|versions| - 1], installed);
    }
  }
}
