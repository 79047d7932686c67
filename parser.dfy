/**
 * Parsers of `asdf` command output (src-tauri/src/asdf/parser.rs).
 *
 * Every parser reads its input line by line (`str::lines`). The ones the source
 * writes as a `for` loop pushing into a vector are methods with that loop, proved
 * equal to `FilterMap` of a per-line function over `Lines(stdout)`; the ones it
 * writes as iterator chains are functions. `Seqs.KeptIndices` then says that the
 * output follows the line order and holds one entry per accepted line.
 */
module Parser {
  import opened Base
  import opened Text
  import opened Seqs
  import opened Types

  // ------------------------------------------------------------ asdf current

  /** What one line of `asdf current` contributes. */
  function CurrentLine(line: string): Option<CurrentVersion> {
    var t := Trim(line);
    if t == [] then None
    else
      var parts := SplitWhitespace(t);
      if |parts| < 2 then None
      else
        Some(CurrentVersion(
          parts[0], parts[1],
          if |parts| > 2 then parts[2] else "",
          if |parts| > 3 then parts[3] == "true" else !Contains(parts[1], "Not installed")))
  }

  /** `parse_current`. */
  method ParseCurrent(stdout: string) returns (results: seq<CurrentVersion>)
    ensures results == FilterMap(Lines(stdout), CurrentLine)
  {
    var lines := Lines(stdout);
    results := [];
    for i := 0 to |lines|
      invariant results == FilterMap(lines[..i], CurrentLine)
    {
      FilterMapStep(lines, i, CurrentLine);
      var raw := lines[i];
      var line := Trim(raw);
      if line == [] {
        assert CurrentLine(raw) == None;
        continue;
      }
      var parts := SplitWhitespace(line);
      if |parts| < 2 {
        assert CurrentLine(raw) == None;
        continue;
      }
      var name := parts[0];
      var version := parts[1];
      var source := if |parts| > 2 then parts[2] else "";
      var installed := if |parts| > 3 then parts[3] == "true" else !Contains(version, "Not installed");
      assert CurrentLine(raw) == Some(CurrentVersion(name, version, source, installed));
      results := results + [CurrentVersion(name, version, source, installed)];
    }
    assert lines[..|lines|] == lines;
  }

  /** A whitespace token never contains the phrase "Not installed", which holds a space. */
  lemma TokenNeverNotInstalled(tok: string)
    requires IsToken(tok)
    ensures !Contains(tok, "Not installed")
  {
    NotContainsChar(tok, "Not installed", 3);
  }

  /**
   * A line of `asdf current` yields an entry exactly when it has at least two
   * whitespace tokens: name, version, then the source or "", and `installed`
   * is the fourth token compared with "true", or true when there is none.
   */
  lemma CurrentLineSpec(line: string)
    ensures var toks := SplitWhitespace(line);
      && (CurrentLine(line).Some? <==> |toks| >= 2)
      && (|toks| >= 2 ==> CurrentLine(line).value == CurrentVersion(
            toks[0], toks[1], if |toks| > 2 then toks[2] else "", |toks| <= 3 || toks[3] == "true"))
  {
    var t := Trim(line);
    var toks := SplitWhitespace(line);
    SplitTrim(line);
    SplitEmptyIff(line);
    assert SplitWhitespace(t) == toks;
    if t == [] {
      assert toks == [];
      assert CurrentLine(line) == None;
    } else if |toks| < 2 {
      assert CurrentLine(line) == None;
    } else {
      TokenNeverNotInstalled(toks[1]);
      var installed := if |toks| > 3 then toks[3] == "true" else !Contains(toks[1], "Not installed");
      assert installed == (|toks| <= 3 || toks[3] == "true");
      assert CurrentLine(line) == Some(CurrentVersion(toks[0], toks[1], if |toks| > 2 then toks[2] else "", installed));
    }
  }

  // -------------------------------------------------------- asdf plugin list

  /** What one line of `asdf plugin list [--urls] [--refs]` contributes. */
  function PluginLine(line: string): Option<Plugin> {
    var t := Trim(line);
    if t == [] then None
    else
      SplitEmptyIff(t);
      TrimTwice(line);
      var parts := SplitWhitespace(t);
      Some(Plugin(parts[0], if |parts| > 1 then Some(parts[1]) else None,
                  if |parts| > 2 then Some(parts[2]) else None))
  }

  /** `parse_plugin_list`. */
  method ParsePluginList(stdout: string) returns (results: seq<Plugin>)
    ensures results == FilterMap(Lines(stdout), PluginLine)
  {
    var lines := Lines(stdout);
    results := [];
    for i := 0 to |lines|
      invariant results == FilterMap(lines[..i], PluginLine)
    {
      FilterMapStep(lines, i, PluginLine);
      var raw := lines[i];
      var line := Trim(raw);
      if line == [] {
        assert PluginLine(raw) == None;
        continue;
      }
      var parts := SplitWhitespace(line);
      SplitEmptyIff(line);
      TrimTwice(raw);
      var name := parts[0];
      var url := if |parts| > 1 then Some(parts[1]) else None;
      var gitRef := if |parts| > 2 then Some(parts[2]) else None;
      assert PluginLine(raw) == Some(Plugin(name, url, gitRef));
      results := results + [Plugin(name, url, gitRef)];
    }
    assert lines[..|lines|] == lines;
  }

  /**
   * Every non-blank line of `asdf plugin list` yields one plugin: its first
   * token is the name, the second and third (when present) the URL and ref.
   */
  lemma PluginLineSpec(line: string)
    ensures var toks := SplitWhitespace(line);
      && (PluginLine(line).Some? <==> Trim(line) != [])
      && (Trim(line) != [] ==> |toks| >= 1 && PluginLine(line).value == Plugin(
            toks[0], if |toks| > 1 then Some(toks[1]) else None, if |toks| > 2 then Some(toks[2]) else None))
  {
    SplitTrim(line);
    SplitEmptyIff(line);
  }

  // ---------------------------------------------------- asdf plugin list all

  /** What one line of `asdf plugin list all` contributes. */
  function RegistryLine(line: string): Option<PluginRegistry> {
    var t := Trim(line);
    if t == [] then None
    else
      var parts := SplitWhitespace(t);
      if |parts| < 2 then None else Some(PluginRegistry(parts[0], parts[1]))
  }

  /** `parse_plugin_list_all`. */
  method ParsePluginListAll(stdout: string) returns (results: seq<PluginRegistry>)
    ensures results == FilterMap(Lines(stdout), RegistryLine)
  {
    var lines := Lines(stdout);
    results := [];
    for i := 0 to |lines|
      invariant results == FilterMap(lines[..i], RegistryLine)
    {
      FilterMapStep(lines, i, RegistryLine);
      var raw := lines[i];
      var line := Trim(raw);
      if line == [] {
        assert RegistryLine(raw) == None;
        continue;
      }
      var parts := SplitWhitespace(line);
      if |parts| < 2 {
        assert RegistryLine(raw) == None;
        continue;
      }
      assert RegistryLine(raw) == Some(PluginRegistry(parts[0], parts[1]));
      results := results + [PluginRegistry(parts[0], parts[1])];
    }
    assert lines[..|lines|] == lines;
  }

  /** A registry line yields an entry iff it has two or more tokens: the first two. */
  lemma RegistryLineSpec(line: string)
    ensures var toks := SplitWhitespace(line);
      && (RegistryLine(line).Some? <==> |toks| >= 2)
      && (|toks| >= 2 ==> RegistryLine(line).value == PluginRegistry(toks[0], toks[1]))
  {
    SplitTrim(line);
    SplitEmptyIff(line);
  }

  // ---------------------------------------------------------- asdf list NAME

  /** What one line of `asdf list NAME` contributes: the version and the current marker. */
  function InstalledLine(line: string): Option<(string, bool)> {
    var trimmed := Trim(line);
    if trimmed == [] then None
    else
      match StripPrefix(trimmed, "*")
      case Some(version) => Some((Trim(version), true))
      case None => Some((trimmed, false))
  }

  /** `parse_list_installed`. */
  method ParseListInstalled(stdout: string) returns (results: seq<(string, bool)>)
    ensures results == FilterMap(Lines(stdout), InstalledLine)
  {
    var lines := Lines(stdout);
    results := [];
    for i := 0 to |lines|
      invariant results == FilterMap(lines[..i], InstalledLine)
    {
      FilterMapStep(lines, i, InstalledLine);
      var raw := lines[i];
      var trimmed := Trim(raw);
      if trimmed == [] {
        assert InstalledLine(raw) == None;
        continue;
      }
      var stripped := StripPrefix(trimmed, "*");
      if stripped.Some? {
        assert InstalledLine(raw) == Some((Trim(stripped.value), true));
        results := results + [(Trim(stripped.value), true)];
      } else {
        assert InstalledLine(raw) == Some((trimmed, false));
        results := results + [(trimmed, false)];
      }
    }
    assert lines[..|lines|] == lines;
  }

  /**
   * Every non-blank line of `asdf list` yields one entry. A line whose trimmed
   * text starts with `*` is the current version: the marker is removed and the
   * rest trimmed; any other line is the trimmed text, not current.
   */
  lemma InstalledLineSpec(line: string)
    ensures InstalledLine(line).Some? <==> Trim(line) != []
    ensures var t := Trim(line);
      t != [] ==>
        InstalledLine(line).value == (if t[0] == '*' then (Trim(t[1..]), true) else (t, false))
  {
  }

  // ------------------------------------------------------ asdf list all NAME

  /** What one line of `asdf list all NAME` contributes: its trimmed text, unless blank. */
  function ListAllLine(line: string): Option<string> {
    var t := Trim(line);
    if t == [] then None else Some(t)
  }

  predicate NonEmpty(s: string) {
    s != []
  }

  /**
   * `parse_list_all`: the lines, trimmed, with the empty ones left out. This is
   * the `filter_map` of `ListAllLine`, so `KeptIndices` gives the order.
   */
  function ParseListAll(stdout: string): (r: seq<string>)
    ensures r == FilterMap(Lines(stdout), ListAllLine)
  {
    ListAllAsFilterMap(Lines(stdout));
    Filter(Map(Lines(stdout), Trim), NonEmpty)
  }

  /** No version `parse_list_all` returns is empty or has surrounding whitespace. */
  lemma ListAllTrimmed(stdout: string)
    ensures forall k :: 0 <= k < |ParseListAll(stdout)| ==>
      ParseListAll(stdout)[k] != [] && Trim(ParseListAll(stdout)[k]) == ParseListAll(stdout)[k]
  {
    var lines := Lines(stdout);
    forall j | 0 <= j < |lines| && ListAllLine(lines[j]).Some?
      ensures ListAllLine(lines[j]).value != [] && Trim(ListAllLine(lines[j]).value) == ListAllLine(lines[j]).value
    {
      TrimTwice(lines[j]);
    }
    FilterMapKeeps(lines, ListAllLine, (v: string) => v != [] && Trim(v) == v);
  }

  /** Trimming every line and then dropping the empty ones is one `filter_map`. */
  lemma {:induction false} ListAllAsFilterMap(ls: seq<string>)
    ensures Filter(Map(ls, Trim), NonEmpty) == FilterMap(ls, ListAllLine)
    decreases |ls|
  {
    if ls != [] {
      var init := ls[..|ls| - 1];
      assert Map(ls, Trim)[..|ls| - 1] == Map(init, Trim);
      ListAllAsFilterMap(init);
    }
  }

  // ----------------------------------------------------------- asdf latest --all

  /** What one line of `asdf latest --all` contributes. */
  function LatestLine(line: string): Option<LatestInfo> {
    var t := Trim(line);
    if t == [] then None
    else
      var parts := SplitWhitespace(t);
      if |parts| < 2 then None
      else
        var installed := if |parts| > 2 then Some(parts[2]) else None;
        Some(LatestInfo(parts[0], parts[1], installed, installed == Some(parts[1])))
  }

  /** `parse_latest_all`. */
  method ParseLatestAll(stdout: string) returns (results: seq<LatestInfo>)
    ensures results == FilterMap(Lines(stdout), LatestLine)
  {
    var lines := Lines(stdout);
    results := [];
    for i := 0 to |lines|
      invariant results == FilterMap(lines[..i], LatestLine)
    {
      FilterMapStep(lines, i, LatestLine);
      var raw := lines[i];
      var line := Trim(raw);
      if line == [] {
        assert LatestLine(raw) == None;
        continue;
      }
      var parts := SplitWhitespace(line);
      if |parts| < 2 {
        assert LatestLine(raw) == None;
        continue;
      }
      var name := parts[0];
      var latest := parts[1];
      var installedVersion := if |parts| > 2 then Some(parts[2]) else None;
      var upToDate := installedVersion == Some(latest);
      assert LatestLine(raw) == Some(LatestInfo(name, latest, installedVersion, upToDate));
      results := results + [LatestInfo(name, latest, installedVersion, upToDate)];
    }
    assert lines[..|lines|] == lines;
  }

  /**
   * A line yields an entry iff it has two or more tokens; `upToDate` holds iff a
   * third token exists and equals the second, so a tool with no installed
   * version is never up to date.
   */
  lemma LatestLineSpec(line: string)
    ensures var toks := SplitWhitespace(line);
      && (LatestLine(line).Some? <==> |toks| >= 2)
      && (|toks| >= 2 ==>
            var e := LatestLine(line).value;
            && e.name == toks[0] && e.latest == toks[1]
            && e.installedVersion == (if |toks| > 2 then Some(toks[2]) else None)
            && (e.upToDate <==> |toks| > 2 && toks[2] == toks[1]))
  {
    SplitTrim(line);
    SplitEmptyIff(line);
  }

  /** In every parsed `latest --all` entry, `upToDate` holds iff the installed version is the latest. */
  lemma LatestAllUpToDate(stdout: string)
    ensures var r := FilterMap(Lines(stdout), LatestLine);
      forall k :: 0 <= k < |r| ==> (r[k].upToDate <==> r[k].installedVersion == Some(r[k].latest))
  {
    FilterMapKeeps(Lines(stdout), LatestLine, (e: LatestInfo) => e.upToDate <==> e.installedVersion == Some(e.latest));
  }

  // ------------------------------------------------------- asdf shimversions

  /** What one line of `asdf shimversions` contributes; the line is not trimmed first. */
  function ShimLine(line: string): Option<ShimVersion> {
    var parts := SplitWhitespace(line);
    if |parts| >= 2 then Some(ShimVersion(parts[0], parts[1])) else None
  }

  /**
   * A line of `asdf shimversions` yields an entry exactly when it has at least
   * two whitespace tokens, which are the plugin and the version; surrounding
   * whitespace does not matter, although the line is not trimmed.
   */
  lemma ShimLineSpec(line: string)
    ensures var toks := SplitWhitespace(line);
      && (ShimLine(line).Some? <==> |toks| >= 2)
      && (|toks| >= 2 ==> ShimLine(line).value == ShimVersion(toks[0], toks[1]))
    ensures ShimLine(line) == ShimLine(Trim(line))
  {
    SplitTrim(line);
  }

  /** The line `plugin version` that asdf prints for an entry parses back to that entry. */
  lemma ShimLineRoundTrip(e: ShimVersion, rest: string)
    requires IsToken(e.plugin) && IsToken(e.version)
    ensures ShimLine(e.plugin + " " + e.version) == Some(e)
    ensures ShimLine(e.plugin + " " + e.version + " " + rest) == Some(e)
  {
    SplitCons(e.plugin, e.version);
    SplitToken(e.version);
    assert e.plugin + " " + e.version + " " + rest == e.plugin + " " + (e.version + " " + rest);
    SplitCons(e.plugin, e.version + " " + rest);
    SplitCons(e.version, rest);
  }

  /**
   * `parse_shim_versions`: the `filter_map` of `ShimLine` over the lines, so one
   * entry per line with at least two tokens, in line order (`KeptIndices`), and
   * every plugin and version is a whitespace-free token.
   */
  function ParseShimVersions(stdout: string): (r: seq<ShimVersion>)
    ensures r == FilterMap(Lines(stdout), ShimLine)
    ensures forall k :: 0 <= k < |r| ==> IsToken(r[k].plugin) && IsToken(r[k].version)
  {
    var lines := Lines(stdout);
    FilterMapKeeps(lines, ShimLine, (e: ShimVersion) => IsToken(e.plugin) && IsToken(e.version));
    FilterMap(lines, ShimLine)
  }

  // ------------------------------------------------------------ .tool-versions

  /** What one line of a `.tool-versions` file contributes. */
  function ToolVersionLine(line: string): Option<ToolVersion> {
    var line := Trim(BeforeFirst(line, '#'));
    if line == [] then None
    else
      var parts := SplitWhitespace(line);
      if parts == [] then None
      else Some(ToolVersion(parts[0], parts[1..]))
  }

  /**
   * `parse_tool_versions`: comments run from the first `#` to the end of the
   * line; a line that is blank without its comment yields nothing; otherwise its
   * first token is the tool and the remaining tokens, possibly none, the versions.
   */
  function ParseToolVersions(content: string): (r: seq<ToolVersion>)
    ensures forall k :: 0 <= k < |r| ==>
      IsToken(r[k].tool) && '#' !in r[k].tool
      && forall j :: 0 <= j < |r[k].versions| ==> IsToken(r[k].versions[j]) && '#' !in r[k].versions[j]
  {
    var lines := Lines(content);
    var idx := KeptIndices(lines, ToolVersionLine);
    KeptIndicesSpec(lines, ToolVersionLine);
    forall k | 0 <= k < |idx|
      ensures var e := FilterMap(lines, ToolVersionLine)[k];
        IsToken(e.tool) && '#' !in e.tool
        && forall j :: 0 <= j < |e.versions| ==> IsToken(e.versions[j]) && '#' !in e.versions[j]
    {
      ToolVersionLineTokens(lines[idx[k]]);
    }
    FilterMap(lines, ToolVersionLine)
  }

  /** The tool and versions of a parsed line are the tokens of its text before `#`. */
  lemma ToolVersionLineSpec(line: string)
    ensures var toks := SplitWhitespace(BeforeFirst(line, '#'));
      && (ToolVersionLine(line).Some? <==> toks != [])
      && (toks != [] ==> ToolVersionLine(line).value == ToolVersion(toks[0], toks[1..]))
  {
    SplitTrim(BeforeFirst(line, '#'));
    SplitEmptyIff(BeforeFirst(line, '#'));
  }

  lemma ToolVersionLineTokens(line: string)
    requires ToolVersionLine(line).Some?
    ensures var e := ToolVersionLine(line).value;
      IsToken(e.tool) && '#' !in e.tool
      && forall j :: 0 <= j < |e.versions| ==> IsToken(e.versions[j]) && '#' !in e.versions[j]
  {
    var text := BeforeFirst(line, '#');
    ToolVersionLineSpec(line);
    TokensOf(text, '#');
  }

  /** Tokens consist of characters of the string they were split from. */
  lemma {:induction false} TokensOf(s: string, c: char)
    requires c !in s
    ensures forall k :: 0 <= k < |SplitWhitespace(s)| ==> c !in SplitWhitespace(s)[k]
    decreases |s|
  {
    if s != [] {
      if IsRustSpace(s[0]) {
        TokensOf(s[1..], c);
      } else {
        var n := TokenLen(s);
        assert c !in s[..n];
        TokensOf(s[n..], c);
      }
    }
  }

  // --------------------------------------------------------------- asdf env

  /** What one line of `asdf env` contributes: the trimmed line split at its first `=`. */
  function EnvLine(line: string): Option<EnvVar> {
    match SplitOnce(Trim(line), '=')
    case Some((key, value)) => Some(EnvVar(key, value))
    case None => None
  }

  /**
   * `parse_env`: lines without `=` are dropped; a kept line's key is the text
   * before its first `=` and holds no `=`, its value everything after it.
   */
  function ParseEnv(stdout: string): (r: seq<EnvVar>)
    ensures forall k :: 0 <= k < |r| ==> '=' !in r[k].key
  {
    var lines := Lines(stdout);
    FilterMapKeeps(lines, EnvLine, (e: EnvVar) => '=' !in e.key);
    FilterMap(lines, EnvLine)
  }

  /** An env line is kept iff it holds `=`; the trimmed line is `key=value`. */
  lemma EnvLineSpec(line: string)
    ensures EnvLine(line).Some? <==> '=' in Trim(line)
    ensures EnvLine(line).Some? ==>
      var e := EnvLine(line).value;
      Trim(line) == e.key + "=" + e.value && '=' !in e.key
  {
  }
}
