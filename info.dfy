/**
 * `parse_asdf_info` (src-tauri/src/commands/info.rs): a scan over the lines of
 * `asdf info` that records five header fields and collects the lines of the
 * installed-plugins section. The loop is proved equal to a fold of `Step`.
 */
module Info {
  import opened Base
  import opened Text
  import opened Seqs
  import opened Types

  /** The five header fields, in the order the scan tests their prefixes. */
  datatype Field = VersionField | OsField | ShellField | DirField | DataDirField

  const PluginsHeader := "ASDF INSTALLED PLUGINS:"

  /** The prefix of each header line. */
  function Prefix(f: Field): string {
    match f
    case VersionField => "ASDF VERSION:"
    case OsField => "OS:"
    case ShellField => "SHELL:"
    case DirField => "ASDF DIR:"
    case DataDirField => "ASDF DATA DIR:"
  }

  /** The first header, in the scan's order, whose prefix starts the trimmed line `t`. */
  function HeaderField(t: string): (r: Option<Field>)
    ensures r.Some? ==> StartsWith(t, Prefix(r.value))
  {
    if StartsWith(t, Prefix(VersionField)) then Some(VersionField)
    else if StartsWith(t, Prefix(OsField)) then Some(OsField)
    else if StartsWith(t, Prefix(ShellField)) then Some(ShellField)
    else if StartsWith(t, Prefix(DirField)) then Some(DirField)
    else if StartsWith(t, Prefix(DataDirField)) then Some(DataDirField)
    else None
  }

  /** The scan's state: the six locals and the `in_plugins` flag. */
  datatype Scan = Scan(version: string, os: string, shell: string, asdfDir: string,
                       asdfDataDir: string, plugins: seq<string>, inPlugins: bool)

  const Start := Scan("", "", "", "", "", [], false)

  function Get(sc: Scan, f: Field): string {
    match f
    case VersionField => sc.version
    case OsField => sc.os
    case ShellField => sc.shell
    case DirField => sc.asdfDir
    case DataDirField => sc.asdfDataDir
  }

  function SetField(sc: Scan, f: Field, v: string): (r: Scan)
    ensures Get(r, f) == v
    ensures forall g :: g != f ==> Get(r, g) == Get(sc, g)
    ensures r.plugins == sc.plugins && r.inPlugins == sc.inPlugins
  {
    match f
    case VersionField => sc.(version := v)
    case OsField => sc.(os := v)
    case ShellField => sc.(shell := v)
    case DirField => sc.(asdfDir := v)
    case DataDirField => sc.(asdfDataDir := v)
  }

  /** What one line does to the scan: the header prefixes in order, then the plugin section. */
  function Step(sc: Scan, line: string): Scan {
    var t := Trim(line);
    match HeaderField(t)
    case Some(f) => SetField(sc, f, Trim(t[|Prefix(f)|..])).(inPlugins := false)
    case None =>
      if StartsWith(t, PluginsHeader) then sc.(inPlugins := true)
      else if sc.inPlugins && t != [] then sc.(plugins := sc.plugins + [t])
      else if t == [] then sc.(inPlugins := false)
      else sc
  }

  /** A header line stores the trimmed text after its prefix and closes the plugin section. */
  lemma StepHeader(sc: Scan, line: string)
    requires HeaderField(Trim(line)).Some?
    ensures var t := Trim(line);
      var f := HeaderField(t).value;
      Step(sc, line) == SetField(sc, f, Trim(t[|Prefix(f)|..])).(inPlugins := false)
  {
  }

  /** Any other line only touches the plugin section. */
  lemma StepOther(sc: Scan, line: string)
    requires HeaderField(Trim(line)).None?
    ensures var t := Trim(line);
      Step(sc, line) ==
        if StartsWith(t, PluginsHeader) then sc.(inPlugins := true)
        else if sc.inPlugins && t != [] then sc.(plugins := sc.plugins + [t])
        else if t == [] then sc.(inPlugins := false)
        else sc
  {
  }

  /** The scan after `lines`, in order. */
  function Run(lines: seq<string>): Scan
    decreases |lines|
  {
    if lines == [] then Start else Step(Run(lines[..|lines| - 1]), lines[|lines| - 1])
  }

  function Result(sc: Scan): AsdfInfo {
    AsdfInfo(sc.version, sc.os, sc.shell, sc.asdfDir, sc.asdfDataDir, sc.plugins)
  }

  /** `parse_asdf_info`: it never fails. */
  method ParseAsdfInfo(stdout: string) returns (r: Result<AsdfInfo, AppError>)
    ensures r == Ok(Result(Run(Lines(stdout))))
  {
    var sc := Start;
    var lines := Lines(stdout);
    for i := 0 to |lines|
      invariant sc == Run(lines[..i])
    {
      RunStep(lines, i);
      sc := ScanLine(sc, lines[i]);
    }
    assert lines[..|lines|] == lines;
    return Ok(AsdfInfo(sc.version, sc.os, sc.shell, sc.asdfDir, sc.asdfDataDir, sc.plugins));
  }

  /**
   * The loop body of `parse_asdf_info`: the `strip_prefix` chain of the header
   * fields first, then the plugin section.
   */
  method ScanLine(sc: Scan, raw: string) returns (next: Scan)
    ensures next == Step(sc, raw)
  {
    var line := Trim(raw);
    var header := StripHeader(line);
    match header
    case Some((f, val)) =>
      next := SetField(sc, f, Trim(val)).(inPlugins := false);
      StepHeader(sc, raw);
    case None =>
      StepOther(sc, raw);
      next := sc;
      if StartsWith(line, PluginsHeader) {
        next := next.(inPlugins := true);
      } else if next.inPlugins && line != [] {
        next := next.(plugins := next.plugins + [line]);
      } else if line == [] {
        next := next.(inPlugins := false);
      }
  }

  /**
   * The `if let Some(val) = line.strip_prefix(..)` chain: the first header
   * field whose prefix the line carries, with the text after that prefix.
   */
  method StripHeader(line: string) returns (r: Option<(Field, string)>)
    ensures HeaderField(line).None? ==> r.None?
    ensures HeaderField(line).Some? ==>
      r == Some((HeaderField(line).value, line[|Prefix(HeaderField(line).value)|..]))
  {
    var val := StripPrefix(line, "ASDF VERSION:");
    if val.Some? {
      return Some((VersionField, val.value));
    }
    val := StripPrefix(line, "OS:");
    if val.Some? {
      return Some((OsField, val.value));
    }
    val := StripPrefix(line, "SHELL:");
    if val.Some? {
      return Some((ShellField, val.value));
    }
    val := StripPrefix(line, "ASDF DIR:");
    if val.Some? {
      return Some((DirField, val.value));
    }
    val := StripPrefix(line, "ASDF DATA DIR:");
    if val.Some? {
      return Some((DataDirField, val.value));
    }
    return None;
  }

  lemma RunSnoc(lines: seq<string>, line: string)
    ensures Run(lines + [line]) == Step(Run(lines), line)
  {
    assert (lines + [line])[..|lines|] == lines;
  }

  lemma RunStep(lines: seq<string>, i: nat)
    requires i < |lines|
    ensures Run(lines[..i + 1]) == Step(Run(lines[..i]), lines[i])
  {
    assert lines[..i + 1][..i] == lines[..i];
  }

  // ------------------------------------------------------------- properties

  /** The value of the last header line for `f`, if any. */
  function LastHeader(lines: seq<string>, f: Field): Option<string>
    decreases |lines|
  {
    if lines == [] then None
    else
      var t := Trim(lines[|lines| - 1]);
      if HeaderField(t) == Some(f) then Some(Trim(t[|Prefix(f)|..]))
      else LastHeader(lines[..|lines| - 1], f)
  }

  /** Each field holds the trimmed value of its last header line, or "" when there is none. */
  lemma {:induction false} LastHeaderWins(lines: seq<string>, f: Field)
    ensures Get(Run(lines), f) == LastHeader(lines, f).GetOr("")
    decreases |lines|
  {
    if lines != [] {
      var init := lines[..|lines| - 1];
      LastHeaderWins(init, f);
      StepGet(Run(init), lines[|lines| - 1], f);
    }
  }

  /** A header line sets its field, leaves the others and the plugin list, and ends the plugin section. */
  lemma HeaderStep(sc: Scan, line: string)
    requires HeaderField(Trim(line)).Some?
    ensures var t := Trim(line);
      var f := HeaderField(t).value;
      && Get(Step(sc, line), f) == Trim(t[|Prefix(f)|..])
      && (forall g :: g != f ==> Get(Step(sc, line), g) == Get(sc, g))
      && Step(sc, line).plugins == sc.plugins
      && !Step(sc, line).inPlugins
  {
    StepHeader(sc, line);
  }

  /** What a step does to one field. */
  lemma StepGet(sc: Scan, line: string, f: Field)
    ensures var t := Trim(line);
      Get(Step(sc, line), f) == if HeaderField(t) == Some(f) then Trim(t[|Prefix(f)|..]) else Get(sc, f)
  {
    var t := Trim(line);
    var s := Step(sc, line);
    if HeaderField(t).Some? {
      var g := HeaderField(t).value;
      StepHeader(sc, line);
      var r := SetField(sc, g, Trim(t[|Prefix(g)|..]));
      GetSection(r, r.plugins, false, f);
    } else {
      StepOther(sc, line);
      assert s == sc.(plugins := s.plugins, inPlugins := s.inPlugins);
      GetSection(sc, s.plugins, s.inPlugins, f);
    }
  }

  /** The plugin list and the section flag are not header fields. */
  lemma GetSection(sc: Scan, plugins: seq<string>, inPlugins: bool, f: Field)
    ensures Get(sc.(plugins := plugins, inPlugins := inPlugins), f) == Get(sc, f)
  {
  }

  /** A line that starts the plugin section is never a header line. */
  lemma PluginsHeaderIsNoField(t: string)
    requires StartsWith(t, PluginsHeader)
    ensures HeaderField(t).None?
  {
    PrefixAt(t, PluginsHeader, 0);
    PrefixAt(t, PluginsHeader, 5);
    forall f ensures !StartsWith(t, Prefix(f)) {
      if StartsWith(t, Prefix(f)) {
        PrefixAt(t, Prefix(f), 0);
        PrefixAt(t, Prefix(f), 5);
      }
    }
  }

  /** The section header opens the plugin section and changes nothing else. */
  lemma SectionStartStep(sc: Scan, line: string)
    requires StartsWith(Trim(line), PluginsHeader)
    ensures Step(sc, line) == sc.(inPlugins := true)
  {
    PluginsHeaderIsNoField(Trim(line));
    StepOther(sc, line);
  }

  /** Inside the plugin section an entry line is appended, trimmed. */
  lemma EntryStep(sc: Scan, line: string)
    requires sc.inPlugins && IsEntry(line)
    ensures Step(sc, line) == sc.(plugins := sc.plugins + [Trim(line)])
  {
    StepOther(sc, line);
  }

  /** A step appends at most the trimmed line, and only a non-empty one. */
  lemma StepPlugins(sc: Scan, line: string)
    ensures Step(sc, line).plugins == sc.plugins
      || (Trim(line) != [] && Step(sc, line).plugins == sc.plugins + [Trim(line)])
  {
    if HeaderField(Trim(line)).Some? {
      StepHeader(sc, line);
    } else {
      StepOther(sc, line);
    }
  }

  lemma PrefixAt(t: string, p: string, k: nat)
    requires StartsWith(t, p) && k < |p|
    ensures t[k] == p[k]
  {
    assert t[..|p|][k] == t[k];
  }

  /** A line that takes part in the plugin section: not blank, not a header of any kind. */
  predicate IsEntry(line: string) {
    var t := Trim(line);
    t != [] && HeaderField(t).None? && !StartsWith(t, PluginsHeader)
  }

  /**
   * After the plugin-section header, every following entry line is appended,
   * trimmed and in order, and the section stays open.
   */
  lemma {:induction false} PluginSection(pre: seq<string>, start: string, mid: seq<string>)
    requires StartsWith(Trim(start), PluginsHeader)
    requires forall j :: 0 <= j < |mid| ==> IsEntry(mid[j])
    ensures Run(pre + [start] + mid).plugins == Run(pre).plugins + Map(mid, Trim)
    ensures Run(pre + [start] + mid).inPlugins
    decreases |mid|
  {
    if mid == [] {
      assert pre + [start] + mid == pre + [start];
      RunSnoc(pre, start);
      SectionStartStep(Run(pre), start);
    } else {
      var init, last := mid[..|mid| - 1], mid[|mid| - 1];
      PluginSection(pre, start, init);
      SectionExtend(pre + [start] + init, last);
      SplitLast(pre + [start], mid);
      MapSnoc(init, last, Trim);
      AppendSnoc(Run(pre).plugins, Map(init, Trim), Trim(last));
    }
  }

  /** One more entry line inside an open plugin section is appended, trimmed. */
  lemma SectionExtend(lines: seq<string>, last: string)
    requires Run(lines).inPlugins && IsEntry(last)
    ensures Run(lines + [last]) == Run(lines).(plugins := Run(lines).plugins + [Trim(last)])
  {
    RunSnoc(lines, last);
    EntryStep(Run(lines), last);
  }

  /** A blank line ends the plugin section and changes nothing else. */
  lemma BlankEndsSection(sc: Scan, line: string)
    requires Trim(line) == []
    ensures Step(sc, line) == sc.(inPlugins := false)
  {
  }

  /** Outside the plugin section, a non-blank line that is no header leaves the scan unchanged. */
  lemma OtherLineIgnored(sc: Scan, line: string)
    requires !sc.inPlugins && IsEntry(line)
    ensures Step(sc, line) == sc
  {
    StepOther(sc, line);
  }

  /** Without a plugin-section header, the plugin list stays empty. */
  lemma {:induction false} NoSectionNoPlugins(lines: seq<string>)
    requires forall j :: 0 <= j < |lines| ==> !StartsWith(Trim(lines[j]), PluginsHeader)
    ensures Run(lines).plugins == [] && !Run(lines).inPlugins
    decreases |lines|
  {
    if lines != [] {
      var init := lines[..|lines| - 1];
      NoSectionNoPlugins(init);
      ClosedStep(Run(init), lines[|lines| - 1]);
    }
  }

  /** Outside the plugin section, only the section header opens it, and nothing is collected. */
  lemma ClosedStep(sc: Scan, line: string)
    requires !sc.inPlugins && !StartsWith(Trim(line), PluginsHeader)
    ensures Step(sc, line).plugins == sc.plugins && !Step(sc, line).inPlugins
  {
    if HeaderField(Trim(line)).Some? {
      StepHeader(sc, line);
    } else {
      StepOther(sc, line);
    }
  }

  /** Every collected plugin is a non-empty trimmed line. */
  lemma {:induction false} PluginsTrimmed(lines: seq<string>)
    ensures forall k :: 0 <= k < |Run(lines).plugins| ==>
      Run(lines).plugins[k] != [] && Trim(Run(lines).plugins[k]) == Run(lines).plugins[k]
    decreases |lines|
  {
    if lines != [] {
      var init := lines[..|lines| - 1];
      var last := lines[|lines| - 1];
      var before := Run(init).plugins;
      var after := Run(lines).plugins;
      assert Run(lines) == Step(Run(init), last);
      PluginsTrimmed(init);
      StepPlugins(Run(init), last);
      TrimTwice(last);
      forall k | 0 <= k < |after| ensures after[k] != [] && Trim(after[k]) == after[k] {
        if k < |before| {
          assert after[k] == before[k];
        } else {
          assert after[k] == Trim(last);
        }
      }
    }
  }
}
