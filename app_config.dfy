/**
 * The settings record's defaults and `.asdfrc` reading
 * (src-tauri/src/config/app_config.rs). The home directory, the
 * `ASDF_CONFIG_FILE` variable, the set of existing files and the file's
 * content are parameters.
 */
module AppConfigFile {
  import opened Base
  import opened Text
  import opened Seqs
  import opened Types
  import opened Paths
  import opened Commands

  /** `AppConfig::default()`. */
  function DefaultConfig(): AppConfig {
    AppConfig("en", "system", None, None, false, true, [])
  }

  /**
   * The documented first-run configuration: English, the system theme,
   * downloads not kept, notifications on and no recent projects. It
   * configures nothing the commands use: they run with the default binary
   * and no working directory, as when reading fails.
   */
  lemma DefaultConfiguresNothing()
    ensures GetConfig(Some(DefaultConfig())) == GetConfig(None) == (None, None)
    ensures DefaultConfig().language == "en" && DefaultConfig().theme == "system"
    ensures !DefaultConfig().keepDownloads && DefaultConfig().notifications
    ensures DefaultConfig().recentProjects == []
  {
  }

  /** What one `.asdfrc` line contributes: blanks and comments are skipped, the rest split at `=`. */
  function AsdfrcLine(line: string): Option<(string, string)> {
    var t := Trim(line);
    if t == [] || StartsWith(t, "#") then None
    else match SplitOnce(t, '=')
      case None => None
      case Some((k, v)) => Some((Trim(k), Trim(v)))
  }

  /**
   * A line is kept iff its trimmed form is non-empty, does not start with `#`
   * and holds `=`; the pair is the trimmed text before the first `=` and the
   * trimmed text after it.
   */
  lemma AsdfrcLineSpec(line: string)
    ensures var t := Trim(line);
      AsdfrcLine(line).Some? <==> t != [] && t[0] != '#' && '=' in t
    ensures var t := Trim(line);
      AsdfrcLine(line).Some? ==>
        exists k, v :: t == k + "=" + v && '=' !in k
          && AsdfrcLine(line).value == (Trim(k), Trim(v))
  {
    var t := Trim(line);
    if t != [] {
      assert StartsWith(t, "#") <==> t[0] == '#';
    }
  }

  /** The pairs of an `.asdfrc` file, in file order. */
  function ParseAsdfrc(content: string): (r: seq<(string, string)>)
    ensures forall i :: 0 <= i < |r| ==> '=' !in r[i].0 && Trim(r[i].0) == r[i].0 && Trim(r[i].1) == r[i].1
  {
    var lines := Lines(content);
    forall j | 0 <= j < |lines| && AsdfrcLine(lines[j]).Some?
      ensures var p := AsdfrcLine(lines[j]).value; '=' !in p.0 && Trim(p.0) == p.0 && Trim(p.1) == p.1
    {
      var t := Trim(lines[j]);
      var (k, v) := SplitOnce(t, '=').value;
      TrimTwice(k);
      TrimTwice(v);
      TrimChars(k);
    }
    FilterMapKeeps(lines, AsdfrcLine, (p: (string, string)) => '=' !in p.0 && Trim(p.0) == p.0 && Trim(p.1) == p.1);
    FilterMap(lines, AsdfrcLine)
  }

  /** The `.asdfrc` to read: `ASDF_CONFIG_FILE` when set, else `~/.asdfrc`. */
  function AsdfrcPath(home: string, configFile: Option<string>): Path {
    if configFile.Some? then FromString(configFile.value) else JoinName(FromString(home), ".asdfrc")
  }

  /**
   * `read_asdfrc`: an error without a home directory (even when the variable is
   * set), no pairs when the file does not exist, the read error when reading
   * fails, and the parsed pairs otherwise.
   */
  function ReadAsdfrc(home: Option<string>, configFile: Option<string>, existing: set<Path>,
                      content: Result<string, AppError>): (r: Result<seq<(string, string)>, AppError>)
    ensures home.None? ==> r == Err(ConfigError("cannot determine home directory"))
    ensures home.Some? && AsdfrcPath(home.value, configFile) !in existing ==> r == Ok([])
    ensures home.Some? && AsdfrcPath(home.value, configFile) in existing ==>
      r == (if content.Err? then Err(content.error) else Ok(ParseAsdfrc(content.value)))
  {
    if home.None? then Err(ConfigError("cannot determine home directory"))
    else if AsdfrcPath(home.value, configFile) !in existing then Ok([])
    else match content
      case Err(e) => Err(e)
      case Ok(text) => Ok(ParseAsdfrc(text))
  }
}
