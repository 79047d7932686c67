/**
 * The `.tool-versions` commands (src-tauri/src/commands/tool_versions.rs): the
 * file content `write_tool_versions` builds, which `parse_tool_versions` reads
 * back, and the scope resolution of `get_tool_versions_path`, where the file
 * system is a set of existing paths.
 */
module ToolVersions {
  import opened Base
  import opened Text
  import opened Seqs
  import opened Types
  import opened Parser
  import opened Paths

  const FileName := ".tool-versions"

  /** One entry as a line: the tool, a space, then the versions separated by spaces. */
  function EntryLine(e: ToolVersion): string {
    e.tool + " " + Join(" ", e.versions)
  }

  /**
   * The content `write_tool_versions` writes: the entry lines joined by "\n",
   * plus one final "\n" unless the joined text is empty.
   */
  function Serialise(entries: seq<ToolVersion>): string {
    var content := Join("\n", Map(entries, EntryLine));
    if content == "" then content else content + "\n"
  }

  /**
   * No entries give the empty file; otherwise every entry line, in order, is
   * followed by exactly one "\n".
   */
  lemma SerialiseShape(entries: seq<ToolVersion>)
    ensures Serialise(entries) == "" <==> entries == []
    ensures entries != [] ==> Serialise(entries) == Terminated(Map(entries, EntryLine))
  {
    if entries != [] {
      var lines := Map(entries, EntryLine);
      JoinLength("\n", lines);
      JoinTerminated(lines);
    }
  }

  /** A joined string is at least as long as its first piece. */
  lemma JoinLength(sep: string, xs: seq<string>)
    requires xs != []
    ensures |Join(sep, xs)| >= |xs[0]|
  {
  }

  /** Every character of a joined string comes from the separator or from a piece. */
  lemma {:induction false} JoinChars(sep: string, xs: seq<string>, c: char)
    requires c !in sep
    requires forall k :: 0 <= k < |xs| ==> c !in xs[k]
    ensures c !in Join(sep, xs)
    decreases |xs|
  {
    if |xs| > 1 {
      JoinChars(sep, xs[1..], c);
    }
  }

  /** An entry the file format can hold: tool and versions are tokens without `#`. */
  predicate Storable(e: ToolVersion) {
    IsToken(e.tool) && '#' !in e.tool
    && forall j :: 0 <= j < |e.versions| ==> IsToken(e.versions[j]) && '#' !in e.versions[j]
  }

  /** The line of a storable entry parses back to the entry. */
  lemma EntryLineRoundTrip(e: ToolVersion)
    requires Storable(e)
    ensures '\n' !in EntryLine(e) && '\r' !in EntryLine(e) && '#' !in EntryLine(e)
    ensures ToolVersionLine(EntryLine(e)) == Some(e)
  {
    var line := EntryLine(e);
    forall c | c in "\n\r#" ensures c !in line {
      JoinChars(" ", e.versions, c);
    }
    SplitCons(e.tool, Join(" ", e.versions));
    SplitJoin(e.versions);
    ToolVersionLineSpec(line);
  }

  /**
   * Writing a list of storable entries and parsing the file back yields the same
   * list: same tools, same versions, same order.
   */
  lemma RoundTrip(entries: seq<ToolVersion>)
    requires forall k :: 0 <= k < |entries| ==> Storable(entries[k])
    ensures ParseToolVersions(Serialise(entries)) == entries
  {
    SerialiseShape(entries);
    if entries != [] {
      var lines := Map(entries, EntryLine);
      forall k | 0 <= k < |lines|
        ensures '\n' !in lines[k] && (lines[k] == [] || lines[k][|lines[k]| - 1] != '\r')
        ensures ToolVersionLine(lines[k]) == Some(entries[k])
      {
        EntryLineRoundTrip(entries[k]);
      }
      LinesTerminated(lines);
      FilterMapAll(lines, ToolVersionLine);
    }
  }

  /** Every parsed file is storable, so rewriting what was read preserves it. */
  lemma RewriteParsed(content: string)
    ensures ParseToolVersions(Serialise(ParseToolVersions(content))) == ParseToolVersions(content)
  {
    RoundTrip(ParseToolVersions(content));
  }

  // ------------------------------------------------------- path resolution

  /** The configured working directory, or the home directory, or "" when neither is known. */
  function CwdOrHome(config: Option<AppConfig>, home: Option<string>): string {
    if config.Some? && config.value.workingDirectory.Some? then config.value.workingDirectory.value
    else home.GetOr("")
  }

  /** The `.tool-versions` file inside `dir`. */
  function Candidate(dir: Path): Path {
    JoinName(dir, FileName)
  }

  /** The walk toward the root: the first directory, from `dir` up, whose file exists. */
  function ParentSearch(dir: Path, existing: set<Path>): Option<Path>
    decreases |dir.parts|
  {
    if Candidate(dir) in existing then Some(Candidate(dir))
    else match Pop(dir)
      case None => None
      case Some(up) => ParentSearch(up, existing)
  }

  /**
   * The walk finds a file iff some ancestor-or-self of `dir` holds one, and then
   * it is the closest: no deeper ancestor holds one.
   */
  lemma ParentSearchClosest(dir: Path, existing: set<Path>)
    ensures ParentSearch(dir, existing).Some? <==>
      exists k :: 0 <= k <= |dir.parts| && Candidate(Ancestor(dir, k)) in existing
    ensures ParentSearch(dir, existing).Some? ==>
      exists k :: 0 <= k <= |dir.parts| && ParentSearch(dir, existing) == Some(Candidate(Ancestor(dir, k)))
        && Candidate(Ancestor(dir, k)) in existing
        && forall j :: k < j <= |dir.parts| ==> Candidate(Ancestor(dir, j)) !in existing
  {
    if ParentSearch(dir, existing).Some? {
      var k := FoundAt(dir, existing);
    } else {
      NotFound(dir, existing);
    }
  }

  /** The depth of the ancestor whose file the walk returns; none deeper holds one. */
  lemma {:induction false} FoundAt(dir: Path, existing: set<Path>) returns (k: nat)
    requires ParentSearch(dir, existing).Some?
    ensures k <= |dir.parts| && ParentSearch(dir, existing) == Some(Candidate(Ancestor(dir, k)))
    ensures Candidate(Ancestor(dir, k)) in existing
    ensures forall j :: k < j <= |dir.parts| ==> Candidate(Ancestor(dir, j)) !in existing
    decreases |dir.parts|
  {
    var n := |dir.parts|;
    assert Ancestor(dir, n) == dir;
    if Candidate(dir) in existing {
      k := n;
    } else {
      var up := Pop(dir).value;
      k := FoundAt(up, existing);
      assert Ancestor(up, k) == Ancestor(dir, k);
      forall j | k < j <= n ensures Candidate(Ancestor(dir, j)) !in existing {
        if j < n {
          assert Ancestor(up, j) == Ancestor(dir, j);
        }
      }
    }
  }

  /** When the walk finds nothing, no ancestor-or-self holds the file. */
  lemma {:induction false} NotFound(dir: Path, existing: set<Path>)
    requires ParentSearch(dir, existing).None?
    ensures forall k :: 0 <= k <= |dir.parts| ==> Candidate(Ancestor(dir, k)) !in existing
    decreases |dir.parts|
  {
    var n := |dir.parts|;
    assert Ancestor(dir, n) == dir;
    if n > 0 {
      var up := Pop(dir).value;
      NotFound(up, existing);
      forall k | 0 <= k <= n ensures Candidate(Ancestor(dir, k)) !in existing {
        if k < n {
          assert Ancestor(up, k) == Ancestor(dir, k);
        }
      }
    }
  }

  /**
   * `get_tool_versions_path`. Home is the home directory's file, an error when
   * the home directory is unknown; Local is the file in the working directory
   * (or home); Parent is the closest existing file from there up, falling back
   * to the Local answer. The start directory's file keeps the configured text
   * of the directory, as `join` does; a file found higher up is rendered from
   * its components.
   */
  method GetToolVersionsPath(scope: SetScope, config: Option<AppConfig>, home: Option<string>, existing: set<Path>)
    returns (r: Result<string, AppError>)
    ensures scope == Home ==>
      r == (if home.None? then Err(ConfigError("cannot determine home directory"))
            else Ok(JoinText(home.value, FileName)))
    ensures scope == Local ==> r == Ok(JoinText(CwdOrHome(config, home), FileName))
    ensures scope == Parent ==>
      var cwd := CwdOrHome(config, home);
      var found := ParentSearch(FromString(cwd), existing);
      r == Ok(if found.Some? && found.value != Candidate(FromString(cwd)) then Render(found.value)
              else JoinText(cwd, FileName))
  {
    match scope
    case Home =>
      if home.None? {
        return Err(ConfigError("cannot determine home directory"));
      }
      return Ok(JoinText(home.value, FileName));
    case Local =>
      var cwd := CwdOrHome(config, home);
      return Ok(JoinText(cwd, FileName));
    case Parent =>
      var cwd := CwdOrHome(config, home);
      var start := FromString(cwd);
      var dir := start;
      var popped := false;
      while true
        invariant ParentSearch(dir, existing) == ParentSearch(start, existing)
        invariant !popped ==> dir == start
        invariant popped ==> |dir.parts| < |start.parts|
        decreases |dir.parts|
      {
        var candidate := JoinName(dir, FileName);
        if candidate in existing {
          // before the first `pop` the candidate's text is the joined working directory
          return Ok(if popped then Render(candidate) else JoinText(cwd, FileName));
        }
        var up := Pop(dir);
        if up.None? {
          break;
        }
        dir := up.value;
        popped := true;
      }
      return Ok(JoinText(cwd, FileName));
  }

  /** The file `get_tool_versions_path` names in a directory is the one the walk looks for there. */
  lemma StartCandidateText(cwd: string)
    ensures FromString(JoinText(cwd, FileName)) == Candidate(FromString(cwd))
  {
    JoinTextPath(cwd, FileName);
  }
}
