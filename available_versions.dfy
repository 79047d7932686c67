/**
 * The available-versions list (src/features/versions/available-versions.tsx):
 * newest first, narrowed by a case-insensitive search, each row with its
 * installed / latest / installing badges.
 */
module AvailableVersions {
  import opened Base
  import opened Text
  import opened Seqs

  /** Whether a version matches the lower-cased search text. */
  predicate Matches(f: string, v: string) {
    Contains(Lower(v), f)
  }

  /** The `filtered` memo: the reversed list, filtered when the search is not empty. */
  function Filtered(versions: seq<string>, filter: string): seq<string> {
    var f := Lower(filter);
    var reversed := Reverse(versions);
    if f != [] then Filter(reversed, (v: string) => Matches(f, v)) else reversed
  }

  /** With an empty search the list is exactly the reversed versions. */
  lemma EmptyFilterShowsAll(versions: seq<string>)
    ensures Filtered(versions, "") == Reverse(versions)
    ensures forall k :: 0 <= k < |versions| ==> Filtered(versions, "")[k] == versions[|versions| - 1 - k]
  {
    forall k | 0 <= k < |versions| ensures Reverse(versions)[k] == versions[|versions| - 1 - k] {
      ReverseAt(versions, k);
    }
  }

  /**
   * The list shown is always a subsequence of the reversed versions, and a
   * version is shown exactly when it is listed and matches the search (any
   * listed version when the search is empty).
   */
  lemma FilteredSpec(versions: seq<string>, filter: string)
    ensures IsSubsequence(Filtered(versions, filter), Reverse(versions))
    ensures forall v :: v in Filtered(versions, filter) <==>
      v in versions && (filter == [] || Matches(Lower(filter), v))
  {
    var f := Lower(filter);
    var reversed := Reverse(versions);
    ReverseMembers(versions);
    if f != [] {
      FilterIsSubsequence(reversed, (v: string) => Matches(f, v));
      forall v ensures v in Filtered(versions, filter) <==> v in versions && Matches(f, v) {
        FilterMembers(reversed, (v: string) => Matches(f, v), v);
      }
    } else {
      SubsequenceRefl(reversed);
    }
  }

  /** What one row shows. */
  datatype Row = Row(version: string, installed: bool, latest: bool, installing: bool, installButton: bool)

  /** The badges and button of the row for `v`. */
  function RowOf(v: string, installedVersions: seq<string>, latestVersion: Option<string>,
                 installingVersion: Option<string>): Row {
    var isInstalled := v in Elements(installedVersions);
    Row(v, isInstalled, latestVersion == Some(v), installingVersion == Some(v), !isInstalled)
  }

  /** The rows of the list, in the order of `Filtered`. */
  function Rows(versions: seq<string>, filter: string, installedVersions: seq<string>,
                latestVersion: Option<string>, installingVersion: Option<string>): seq<Row> {
    Map(Filtered(versions, filter), (v: string) => RowOf(v, installedVersions, latestVersion, installingVersion))
  }

  /**
   * A row is marked installed iff its version is an installed one, and only
   * such rows lack the install button; the latest badge and the disabled
   * (installing) button go to exactly the matching version.
   */
  lemma RowFlags(versions: seq<string>, filter: string, installedVersions: seq<string>,
                 latestVersion: Option<string>, installingVersion: Option<string>, k: nat)
    requires k < |Rows(versions, filter, installedVersions, latestVersion, installingVersion)|
    ensures var row := Rows(versions, filter, installedVersions, latestVersion, installingVersion)[k];
      && row.version == Filtered(versions, filter)[k]
      && (row.installed <==> row.version in installedVersions)
      && (row.installButton <==> row.version !in installedVersions)
      && (row.latest <==> latestVersion == Some(row.version))
      && (row.installing <==> installingVersion == Some(row.version))
  {
  }
}
