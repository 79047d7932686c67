/**
 * File-system paths as Rust's `PathBuf` sees them: absolute or relative, and a
 * list of normal components. `join`, `pop` and `file_name` act on components.
 */
module Paths {
  import opened Base
  import opened Text

  datatype Path = Path(absolute: bool, parts: seq<string>)

  /** The pieces of `s` between `/` separators, in order; there is always at least one. */
  function SplitSlash(s: string): (r: seq<string>)
    ensures |r| >= 1
    decreases |s|
  {
    if s == [] then [""]
    else
      var rest := SplitSlash(s[1..]);
      if s[0] == '/' then [""] + rest else [[s[0]] + rest[0]] + rest[1..]
  }

  /** No piece holds a separator. */
  lemma {:induction false} SplitSlashNoSlash(s: string)
    ensures forall k :: 0 <= k < |SplitSlash(s)| ==> '/' !in SplitSlash(s)[k]
    decreases |s|
  {
    if s != [] {
      SplitSlashNoSlash(s[1..]);
    }
  }

  /** A piece that names a directory entry: not empty and not `.`. */
  predicate IsNormal(piece: string) {
    piece != "" && piece != "."
  }

  /** `PathBuf::from(s)`: empty and `.` pieces carry no component. */
  function FromString(s: string): (p: Path)
    ensures p.absolute <==> StartsWith(s, "/")
    ensures forall k :: 0 <= k < |p.parts| ==> IsNormal(p.parts[k]) && '/' !in p.parts[k]
  {
    var pieces := SplitSlash(s);
    SplitSlashNoSlash(s);
    Path(StartsWith(s, "/"), NormalPieces(pieces))
  }

  /** The normal pieces, in order. */
  function NormalPieces(pieces: seq<string>): (r: seq<string>)
    ensures forall k :: 0 <= k < |r| ==> IsNormal(r[k]) && r[k] in pieces
    decreases |pieces|
  {
    if pieces == [] then []
    else (if IsNormal(pieces[0]) then [pieces[0]] else []) + NormalPieces(pieces[1..])
  }

  /** `path.to_string_lossy()`. */
  function Render(p: Path): string {
    (if p.absolute then "/" else "") + Join("/", p.parts)
  }

  /**
   * `PathBuf::from(base).join(name).to_string_lossy()` for a relative
   * single-component `name`: the text of `base` is kept as it is, followed by a
   * `/` unless it is empty or already ends in one, and then `name`.
   */
  function JoinText(base: string, name: string): (r: string)
    ensures |base| + |name| <= |r| <= |base| + 1 + |name|
    ensures r[..|base|] == base && r[|r| - |name|..] == name
  {
    if base == "" || base[|base| - 1] == '/' then base + name else base + "/" + name
  }

  /** The joined text names the path that joining the components gives. */
  lemma JoinTextPath(base: string, name: string)
    requires IsNormal(name) && '/' !in name
    ensures FromString(JoinText(base, name)) == JoinName(FromString(base), name)
  {
    if base == "" {
      JoinEmptyBase(name);
    } else if base[|base| - 1] == '/' {
      JoinAfterSlash(base[..|base| - 1], name);
      assert base[..|base| - 1] + "/" == base;
    } else {
      JoinWithSlash(base, name);
    }
  }

  lemma JoinEmptyBase(name: string)
    requires IsNormal(name) && '/' !in name
    ensures FromString(JoinText("", name)) == JoinName(FromString(""), name)
  {
    SplitSlashPiece(name);
    SplitSlashPiece("");
    assert !StartsWith(name, "/") by { assert name[0] != '/'; }
    assert NormalPieces([""]) == [] && NormalPieces([name]) == [name];
  }

  /** A base that already ends in `/` gets no second one. */
  lemma JoinAfterSlash(a: string, name: string)
    requires IsNormal(name) && '/' !in name
    ensures FromString(JoinText(a + "/", name)) == JoinName(FromString(a + "/"), name)
  {
    var base := a + "/";
    var r := JoinText(base, name);
    assert r == a + "/" + name;
    assert base == a + "/" + "";
    assert SplitSlash(r) == SplitSlash(a) + [name] by {
      SplitSlashAppend(a, name);
      SplitSlashPiece(name);
    }
    assert SplitSlash(base) == SplitSlash(a) + [""] by {
      SplitSlashAppend(a, "");
      SplitSlashPiece("");
    }
    assert NormalPieces(SplitSlash(r)) == NormalPieces(SplitSlash(a)) + [name] by {
      NormalPiecesAppend(SplitSlash(a), [name]);
    }
    assert NormalPieces(SplitSlash(base)) == NormalPieces(SplitSlash(a)) by {
      NormalPiecesAppend(SplitSlash(a), [""]);
    }
    assert r[..1] == base[..1];
  }

  /** Any other non-empty base gets a `/` before the name. */
  lemma JoinWithSlash(base: string, name: string)
    requires IsNormal(name) && '/' !in name
    requires base != "" && base[|base| - 1] != '/'
    ensures FromString(JoinText(base, name)) == JoinName(FromString(base), name)
  {
    var r := JoinText(base, name);
    assert r == base + "/" + name;
    assert SplitSlash(r) == SplitSlash(base) + [name] by {
      SplitSlashAppend(base, name);
      SplitSlashPiece(name);
    }
    assert NormalPieces(SplitSlash(r)) == NormalPieces(SplitSlash(base)) + [name] by {
      NormalPiecesAppend(SplitSlash(base), [name]);
    }
    assert r[..1] == base[..1];
  }

  /** A separator splits the text into the pieces before it and the pieces after it. */
  lemma {:induction false} SplitSlashAppend(a: string, b: string)
    ensures SplitSlash(a + "/" + b) == SplitSlash(a) + SplitSlash(b)
    decreases |a|
  {
    var s := a + "/" + b;
    if a == [] {
      assert s == "/" + b;
      assert s[1..] == b;
    } else {
      assert s[0] == a[0];
      assert s[1..] == a[1..] + "/" + b;
      SplitSlashAppend(a[1..], b);
    }
  }

  /** Text without a separator is one piece. */
  lemma {:induction false} SplitSlashPiece(t: string)
    requires '/' !in t
    ensures SplitSlash(t) == [t]
    decreases |t|
  {
    if t != [] {
      assert '/' !in t[1..] by {
        forall j | 0 <= j < |t| - 1 ensures t[1..][j] != '/' {
          assert t[1..][j] == t[j + 1];
        }
      }
      SplitSlashPiece(t[1..]);
      assert [t[0]] + t[1..] == t;
    }
  }

  lemma {:induction false} NormalPiecesAppend(p: seq<string>, q: seq<string>)
    ensures NormalPieces(p + q) == NormalPieces(p) + NormalPieces(q)
    decreases |p|
  {
    if p != [] {
      assert (p + q)[1..] == p[1..] + q;
      NormalPiecesAppend(p[1..], q);
    } else {
      assert p + q == q;
    }
  }

  /** `dir.join(name)` for a relative single-component `name`. */
  function JoinName(p: Path, name: string): (r: Path)
    ensures r.absolute == p.absolute && r.parts == p.parts + [name]
  {
    Path(p.absolute, p.parts + [name])
  }

  /** `dir.pop()`: removes the last component; fails, changing nothing, when there is none. */
  function Pop(p: Path): (r: Option<Path>)
    ensures r.None? <==> p.parts == []
    ensures r.Some? ==> r.value.absolute == p.absolute && p.parts == r.value.parts + [p.parts[|p.parts| - 1]]
  {
    if p.parts == [] then None else Some(Path(p.absolute, p.parts[..|p.parts| - 1]))
  }

  /** `path.file_name()`: the last component, unless there is none or it is `..`. */
  function FileName(p: Path): (r: Option<string>)
    ensures r.Some? <==> p.parts != [] && p.parts[|p.parts| - 1] != ".."
    ensures r.Some? ==> r.value == p.parts[|p.parts| - 1]
  {
    if p.parts == [] || p.parts[|p.parts| - 1] == ".." then None else Some(p.parts[|p.parts| - 1])
  }

  /** The ancestor of `p` that keeps its first `k` components. */
  function Ancestor(p: Path, k: nat): (r: Path)
    requires k <= |p.parts|
    ensures r.absolute == p.absolute && |r.parts| == k
  {
    Path(p.absolute, p.parts[..k])
  }
}
