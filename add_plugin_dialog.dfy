/**
 * The add-plugin dialog (src/features/plugins/add-plugin-dialog.tsx): a
 * searchable registry list and a custom name/URL form, both handing the
 * plugin to the page's `onAdd` and closing the dialog only on success.
 */
module AddPluginDialog {
  import opened Base
  import opened Text
  import opened Seqs
  import opened Types
  import opened Gateway

  /** Whether a registry entry matches the search, case-insensitively. */
  predicate NameMatches(search: string, p: PluginRegistry) {
    Contains(Lower(p.name), Lower(search))
  }

  /** `filteredRegistry`: the entries whose name contains the search, ignoring case. */
  function FilteredRegistry(registry: seq<PluginRegistry>, search: string): seq<PluginRegistry> {
    Filter(registry, (p: PluginRegistry) => NameMatches(search, p))
  }

  /** The filter keeps the registry's order, and exactly the matching entries. */
  lemma FilteredRegistrySpec(registry: seq<PluginRegistry>, search: string)
    ensures IsSubsequence(FilteredRegistry(registry, search), registry)
    ensures forall p :: p in FilteredRegistry(registry, search) <==> p in registry && NameMatches(search, p)
  {
    FilterIsSubsequence(registry, (p: PluginRegistry) => NameMatches(search, p));
    forall p ensures p in FilteredRegistry(registry, search) <==> p in registry && NameMatches(search, p) {
      FilterMembers(registry, (p: PluginRegistry) => NameMatches(search, p), p);
    }
  }

  /** An empty search shows the whole registry. */
  lemma EmptySearchShowsAll(registry: seq<PluginRegistry>)
    ensures FilteredRegistry(registry, "") == registry
  {
    forall k | 0 <= k < |registry| ensures NameMatches("", registry[k]) {
      assert OccursAt(Lower(registry[k].name), Lower(""), 0);
    }
    FilterKeepsAll(registry, (p: PluginRegistry) => NameMatches("", p));
  }

  class Dialog {
    var search: string
    var customName: string
    var customUrl: string
    /** The name being added, or `None`. */
    var adding: Option<string>
    /** The `onAdd` calls and `onOpenChange(false)` closings made so far, in order. */
    ghost var calls: seq<Call>

    constructor()
      ensures search == "" && customName == "" && customUrl == "" && adding == None && calls == []
    {
      search := "";
      customName := "";
      customUrl := "";
      adding := None;
      calls := [];
    }

    /** The custom form's add button is disabled. */
    predicate CustomAddDisabled()
      reads this
    {
      JsTrim(customName) == [] || JsTrim(customUrl) == [] || adding.Some?
    }

    /** A registry row's add button is disabled: that name is being added. */
    predicate RegistryAddDisabled(name: string)
      reads this
    {
      adding == Some(name)
    }

    /** `handleAddFromRegistry(name)` up to `onAdd`. */
    method AddFromRegistryBegin(name: string)
      modifies this
      ensures adding == Some(name) && RegistryAddDisabled(name) && CustomAddDisabled()
      ensures calls == old(calls) + [OnAdd(name, None)]
      ensures search == old(search) && customName == old(customName) && customUrl == old(customUrl)
    {
      adding := Some(name);
      calls := calls + [OnAdd(name, None)];
    }

    /** The rest of `handleAddFromRegistry`: close only on success; the error goes to the caller. */
    method AddFromRegistryEnd(result: Done) returns (r: Done)
      modifies this
      ensures r == result && adding == None
      ensures result.Pass? ==> calls == old(calls) + [CloseDialog]
      ensures result.Fail? ==> calls == old(calls)
      ensures search == old(search) && customName == old(customName) && customUrl == old(customUrl)
    {
      if result.Pass? {
        calls := calls + [CloseDialog];
      }
      adding := None;
      return result;
    }

    /**
     * `handleAddCustom` up to `onAdd`: nothing unless both trimmed fields are
     * filled; then `onAdd` gets both trimmed, while `adding` holds the name as
     * typed.
     */
    method AddCustomBegin() returns (started: bool)
      modifies this
      ensures started <==> JsTrim(old(customName)) != [] && JsTrim(old(customUrl)) != []
      ensures !started ==> adding == old(adding) && calls == old(calls)
      ensures started ==>
        adding == Some(customName) && CustomAddDisabled()
        && calls == old(calls) + [OnAdd(JsTrim(customName), Some(JsTrim(customUrl)))]
      ensures search == old(search) && customName == old(customName) && customUrl == old(customUrl)
    {
      var name, url := JsTrim(customName), JsTrim(customUrl);
      if name == [] || url == [] {
        return false;
      }
      adding := Some(customName);
      calls := calls + [OnAdd(name, Some(url))];
      return true;
    }

    /** The rest of `handleAddCustom`: only a success clears the form and closes the dialog. */
    method AddCustomEnd(result: Done) returns (r: Done)
      modifies this
      ensures r == result && adding == None
      ensures result.Pass? ==> customName == "" && customUrl == "" && calls == old(calls) + [CloseDialog]
      ensures result.Fail? ==> customName == old(customName) && customUrl == old(customUrl) && calls == old(calls)
      ensures search == old(search)
    {
      if result.Pass? {
        customName := "";
        customUrl := "";
        calls := calls + [CloseDialog];
      }
      adding := None;
      return result;
    }
  }
}
