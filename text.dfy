/**
 * String primitives of the Rust and JavaScript standard libraries that the
 * parsers and handlers rely on: whitespace classes, `trim`, `split_whitespace`,
 * `lines`, `split_once`, `strip_prefix`, `contains`, `join` and ASCII case folding.
 */
module Text {

  /** Rust `char::is_whitespace`: the Unicode White_Space property. */
  predicate IsRustSpace(c: char) {
    c == ' ' || ('\t' <= c <= '\r') || c == '\U{85}' || c == '\U{A0}' || c == '\U{1680}'
    || ('\U{2000}' <= c <= '\U{200A}') || c == '\U{2028}' || c == '\U{2029}'
    || c == '\U{202F}' || c == '\U{205F}' || c == '\U{3000}'
  }

  /** The characters JavaScript `String.prototype.trim` removes: WhiteSpace and LineTerminator. */
  predicate IsJsSpace(c: char) {
    c == ' ' || ('\t' <= c <= '\r') || c == '\U{A0}' || c == '\U{1680}'
    || ('\U{2000}' <= c <= '\U{200A}') || c == '\U{2028}' || c == '\U{2029}'
    || c == '\U{202F}' || c == '\U{205F}' || c == '\U{3000}' || c == '\U{FEFF}'
  }

  /** `s` contains no character of the class `ws`. */
  predicate NoSpace(s: string, ws: char -> bool) {
    forall i :: 0 <= i < |s| ==> !ws(s[i])
  }

  /** `s` is a non-empty run of characters outside `ws`: one whitespace token. */
  predicate IsToken(s: string) {
    |s| > 0 && NoSpace(s, IsRustSpace)
  }

  // ---------------------------------------------------------------- trimming

  function TrimStartWith(s: string, ws: char -> bool): (r: string)
    ensures |r| <= |s| && r == s[|s| - |r|..]
    ensures r == [] || !ws(r[0])
    decreases |s|
  {
    if |s| > 0 && ws(s[0]) then TrimStartWith(s[1..], ws) else s
  }

  function TrimEndWith(s: string, ws: char -> bool): (r: string)
    ensures |r| <= |s| && r == s[..|r|]
    ensures r == [] || !ws(r[|r| - 1])
    decreases |s|
  {
    if |s| > 0 && ws(s[|s| - 1]) then TrimEndWith(s[..|s| - 1], ws) else s
  }

  /** Removes leading and trailing characters of the class `ws`. */
  function TrimWith(s: string, ws: char -> bool): string {
    TrimEndWith(TrimStartWith(s, ws), ws)
  }

  /** Rust `str::trim`. */
  function Trim(s: string): string {
    TrimWith(s, IsRustSpace)
  }

  /** JavaScript `String.prototype.trim`. */
  function JsTrim(s: string): string {
    TrimWith(s, IsJsSpace)
  }

  /** A trimmed string is empty exactly when every character is whitespace. */
  lemma TrimEmptyIff(s: string, ws: char -> bool)
    ensures TrimWith(s, ws) == [] <==> forall i :: 0 <= i < |s| ==> ws(s[i])
  {
    var t := TrimStartWith(s, ws);
    TrimStartRemoved(s, ws);
    if TrimWith(s, ws) == [] {
      TrimEndRemoved(t, ws);
      assert t == [];
    }
  }

  /** `TrimStartWith` removes only characters of the class. */
  lemma {:induction false} TrimStartRemoved(s: string, ws: char -> bool)
    ensures forall i :: 0 <= i < |s| - |TrimStartWith(s, ws)| ==> ws(s[i])
    decreases |s|
  {
    if |s| > 0 && ws(s[0]) {
      TrimStartRemoved(s[1..], ws);
    }
  }

  /** `TrimEndWith` removes only characters of the class. */
  lemma {:induction false} TrimEndRemoved(s: string, ws: char -> bool)
    ensures forall i :: |TrimEndWith(s, ws)| <= i < |s| ==> ws(s[i])
    decreases |s|
  {
    if |s| > 0 && ws(s[|s| - 1]) {
      TrimEndRemoved(s[..|s| - 1], ws);
    }
  }

  /** Trimming a string without leading or trailing whitespace changes nothing. */
  lemma TrimNoOp(s: string, ws: char -> bool)
    requires s == [] || (!ws(s[0]) && !ws(s[|s| - 1]))
    ensures TrimWith(s, ws) == s
  {
  }

  /** Trimming is idempotent. */
  lemma TrimTwice(s: string)
    ensures Trim(Trim(s)) == Trim(s)
  {
    TrimNoOp(Trim(s), IsRustSpace);
  }

  /** Trimming only removes characters: what remains is a slice of the input. */
  lemma TrimChars(s: string)
    ensures Contains(s, Trim(s))
    ensures forall c :: c in Trim(s) ==> c in s
  {
    var t := TrimStartWith(s, IsRustSpace);
    var i := |s| - |t|;
    assert t == s[i..];
    assert Trim(s) == t[..|Trim(s)|] == s[i..i + |Trim(s)|];
    assert OccursAt(s, Trim(s), i);
    forall c | c in Trim(s) ensures c in s {
      var j :| 0 <= j < |Trim(s)| && Trim(s)[j] == c;
      assert s[i + j] == c;
    }
  }

  // ---------------------------------------------------------- split_whitespace

  /** Length of the leading run of non-whitespace characters. */
  function TokenLen(s: string): (n: nat)
    ensures n <= |s|
    ensures forall i :: 0 <= i < n ==> !IsRustSpace(s[i])
    ensures n < |s| ==> IsRustSpace(s[n])
  {
    if s == [] || IsRustSpace(s[0]) then 0 else 1 + TokenLen(s[1..])
  }

  /** Rust `str::split_whitespace`: the maximal runs of non-whitespace, in order. */
  function SplitWhitespace(s: string): (toks: seq<string>)
    ensures forall k :: 0 <= k < |toks| ==> IsToken(toks[k])
    decreases |s|
  {
    if s == [] then []
    else if IsRustSpace(s[0]) then SplitWhitespace(s[1..])
    else
      var n := TokenLen(s);
      [s[..n]] + SplitWhitespace(s[n..])
  }

  /** A trailing whitespace character adds no token. */
  lemma {:induction false} SplitAppendSpace(s: string, c: char)
    requires IsRustSpace(c)
    ensures SplitWhitespace(s + [c]) == SplitWhitespace(s)
    decreases |s|
  {
    if s == [] {
      assert SplitWhitespace([c]) == SplitWhitespace([c][1..]);
    } else if IsRustSpace(s[0]) {
      assert (s + [c])[1..] == s[1..] + [c];
      SplitAppendSpace(s[1..], c);
    } else {
      var n := TokenLen(s);
      assert TokenLen(s + [c]) == n by { TokenLenExtend(s, [c]); }
      assert (s + [c])[..n] == s[..n];
      assert (s + [c])[n..] == s[n..] + [c];
      SplitAppendSpace(s[n..], c);
    }
  }

  /** The first token of `s` is unaffected by what follows a whitespace character. */
  lemma {:induction false} TokenLenExtend(s: string, t: string)
    requires TokenLen(s) < |s| || t == [] || IsRustSpace(t[0])
    ensures TokenLen(s + t) == TokenLen(s)
    decreases |s|
  {
    if s == [] {
    } else if IsRustSpace(s[0]) {
    } else {
      assert (s + t)[1..] == s[1..] + t;
      TokenLenExtend(s[1..], t);
    }
  }

  /** `split_whitespace` ignores leading and trailing whitespace. */
  lemma {:induction false} SplitTrim(s: string)
    ensures SplitWhitespace(Trim(s)) == SplitWhitespace(s)
  {
    SplitTrimStart(s);
    SplitTrimEnd(TrimStartWith(s, IsRustSpace));
  }

  lemma {:induction false} SplitTrimStart(s: string)
    ensures SplitWhitespace(TrimStartWith(s, IsRustSpace)) == SplitWhitespace(s)
    decreases |s|
  {
    if |s| > 0 && IsRustSpace(s[0]) {
      SplitTrimStart(s[1..]);
    }
  }

  lemma {:induction false} SplitTrimEnd(s: string)
    ensures SplitWhitespace(TrimEndWith(s, IsRustSpace)) == SplitWhitespace(s)
    decreases |s|
  {
    if |s| > 0 && IsRustSpace(s[|s| - 1]) {
      var init := s[..|s| - 1];
      assert s == init + [s[|s| - 1]];
      SplitAppendSpace(init, s[|s| - 1]);
      SplitTrimEnd(init);
    }
  }

  /** A string of whitespace only has no tokens, and a token-free string is blank. */
  lemma {:induction false} SplitEmptyIff(s: string)
    ensures SplitWhitespace(s) == [] <==> Trim(s) == []
  {
    SplitTrim(s);
    var t := Trim(s);
    if t != [] {
      assert !IsRustSpace(t[0]);
      assert SplitWhitespace(t) != [];
    }
  }

  /** A token followed by a space and more text splits into that token and the rest. */
  lemma SplitCons(tok: string, rest: string)
    requires IsToken(tok)
    ensures SplitWhitespace(tok + " " + rest) == [tok] + SplitWhitespace(rest)
  {
    var s := tok + " " + rest;
    assert s == tok + (" " + rest);
    TokenLenExtend(tok, " " + rest);
    TokenLenAll(tok);
    assert TokenLen(s) == |tok|;
    assert s[0] == tok[0] && !IsRustSpace(s[0]);
    assert s[..|tok|] == tok;
    assert s[|tok|..] == " " + rest;
    assert SplitWhitespace(s) == [tok] + SplitWhitespace(" " + rest);
    assert (" " + rest)[1..] == rest;
    assert SplitWhitespace(" " + rest) == SplitWhitespace(rest);
  }

  lemma {:induction false} TokenLenAll(s: string)
    requires NoSpace(s, IsRustSpace)
    ensures TokenLen(s) == |s|
    decreases |s|
  {
    if s != [] {
      TokenLenAll(s[1..]);
    }
  }

  /** A single token splits into itself. */
  lemma SplitToken(tok: string)
    requires IsToken(tok)
    ensures SplitWhitespace(tok) == [tok]
  {
    TokenLenAll(tok);
    assert tok[..|tok|] == tok;
  }

  // --------------------------------------------------------------------- join

  /** Rust `[String]::join` and JavaScript `Array.prototype.join`. */
  function Join(sep: string, xs: seq<string>): string
    decreases |xs|
  {
    if xs == [] then ""
    else if |xs| == 1 then xs[0]
    else xs[0] + sep + Join(sep, xs[1..])
  }

  /** Tokens joined by single spaces split back into the same tokens. */
  lemma {:induction false} SplitJoin(toks: seq<string>)
    requires forall k :: 0 <= k < |toks| ==> IsToken(toks[k])
    ensures SplitWhitespace(Join(" ", toks)) == toks
    decreases |toks|
  {
    if |toks| == 1 {
      SplitToken(toks[0]);
    } else if |toks| > 1 {
      SplitCons(toks[0], Join(" ", toks[1..]));
      SplitJoin(toks[1..]);
    }
  }

  // -------------------------------------------------------------------- lines

  /** Index of the first occurrence of `c`, or `|s|` when there is none. */
  function IndexOf(s: string, c: char): (i: nat)
    ensures i <= |s|
    ensures i < |s| ==> s[i] == c
    ensures forall j :: 0 <= j < i ==> s[j] != c
  {
    if s == [] then 0 else if s[0] == c then 0 else 1 + IndexOf(s[1..], c)
  }

  /** Removes one trailing carriage return. */
  function StripCR(l: string): string {
    if |l| > 0 && l[|l| - 1] == '\r' then l[..|l| - 1] else l
  }

  /**
   * Rust `str::lines`: splits at "\n" (dropping a "\r" before it); the last
   * line needs no terminator and an empty last piece is not a line.
   */
  function Lines(s: string): (ls: seq<string>)
    ensures forall k :: 0 <= k < |ls| ==> '\n' !in ls[k]
    decreases |s|
  {
    if s == [] then []
    else
      var i := IndexOf(s, '\n');
      if i == |s| then [s]
      else [StripCR(s[..i])] + Lines(s[i + 1..])
  }

  /** A line without its terminator, followed by "\n", is peeled off first. */
  lemma LinesCons(l: string, rest: string)
    requires '\n' !in l && (l == [] || l[|l| - 1] != '\r')
    ensures Lines(l + "\n" + rest) == [l] + Lines(rest)
  {
    var s := l + "\n" + rest;
    assert IndexOf(s, '\n') == |l| by {
      assert s[|l|] == '\n';
      forall j | 0 <= j < |l| ensures s[j] != '\n' { assert s[j] == l[j]; }
      IndexOfFirst(s, '\n', |l|);
    }
    assert s[..|l|] == l;
    assert s[|l| + 1..] == rest;
  }

  lemma {:induction false} IndexOfFirst(s: string, c: char, i: nat)
    requires i < |s| && s[i] == c
    requires forall j :: 0 <= j < i ==> s[j] != c
    ensures IndexOf(s, c) == i
    decreases i
  {
    if i > 0 {
      IndexOfFirst(s[1..], c, i - 1);
    }
  }

  /** Every line terminated by "\n": the form of a file whose last line is terminated. */
  function Terminated(ls: seq<string>): string
    decreases |ls|
  {
    if ls == [] then "" else ls[0] + "\n" + Terminated(ls[1..])
  }

  /** Terminated lines split back into the same lines. */
  lemma {:induction false} LinesTerminated(ls: seq<string>)
    requires forall k :: 0 <= k < |ls| ==> '\n' !in ls[k] && (ls[k] == [] || ls[k][|ls[k]| - 1] != '\r')
    ensures Lines(Terminated(ls)) == ls
    decreases |ls|
  {
    if ls != [] {
      LinesCons(ls[0], Terminated(ls[1..]));
      LinesTerminated(ls[1..]);
    }
  }

  /** Joining non-empty lines with "\n" and adding one "\n" terminates each of them. */
  lemma {:induction false} JoinTerminated(ls: seq<string>)
    requires ls != []
    ensures Join("\n", ls) + "\n" == Terminated(ls)
    decreases |ls|
  {
    if |ls| == 1 {
      assert Terminated(ls[1..]) == "";
    } else {
      JoinTerminated(ls[1..]);
      assert Join("\n", ls) + "\n" == ls[0] + "\n" + (Join("\n", ls[1..]) + "\n");
    }
  }

  // ------------------------------------------------------- prefixes and search

  predicate StartsWith(s: string, p: string) {
    |p| <= |s| && s[..|p|] == p
  }

  /** Rust `str::strip_prefix`. */
  function StripPrefix(s: string, p: string): (r: Option<string>)
    ensures r.Some? <==> StartsWith(s, p)
    ensures r.Some? ==> s == p + r.value
  {
    if StartsWith(s, p) then Some(s[|p|..]) else None
  }

  /** `needle` occurs in `s` as a contiguous substring (Rust and JS `contains`/`includes`). */
  predicate Contains(s: string, needle: string) {
    exists i :: 0 <= i <= |s| - |needle| && OccursAt(s, needle, i)
  }

  predicate OccursAt(s: string, needle: string, i: nat)
    requires i + |needle| <= |s|
  {
    s[i..i + |needle|] == needle
  }

  /** A string free of `c` contains no substring holding `c`. */
  lemma NotContainsChar(s: string, needle: string, k: nat)
    requires k < |needle|
    requires forall i :: 0 <= i < |s| ==> s[i] != needle[k]
    ensures !Contains(s, needle)
  {
    forall i | 0 <= i <= |s| - |needle| ensures !OccursAt(s, needle, i) {
      assert s[i..i + |needle|][k] == s[i + k];
    }
  }

  /** Rust `str::split_once(c)`: the text before and after the first `c`. */
  function SplitOnce(s: string, c: char): (r: Option<(string, string)>)
    ensures r.None? <==> c !in s
    ensures r.Some? ==> s == r.value.0 + [c] + r.value.1 && c !in r.value.0
  {
    var i := IndexOf(s, c);
    if i == |s| then None
    else
      assert s == s[..i] + [c] + s[i + 1..];
      Some((s[..i], s[i + 1..]))
  }

  /** Rust `s.split(c).next()`: the text before the first `c`, or all of `s`. */
  function BeforeFirst(s: string, c: char): (r: string)
    ensures c !in r
    ensures |r| <= |s| && r == s[..|r|]
    ensures |r| < |s| ==> s[|r|] == c
    ensures c !in s ==> r == s
  {
    s[..IndexOf(s, c)]
  }

  // -------------------------------------------------------------- case folding

  /** ASCII lower-casing of one character. */
  function LowerChar(c: char): char {
    if 'A' <= c <= 'Z' then (c as int + 32) as char else c
  }

  /** `toLowerCase`, restricted to ASCII folding. */
  function Lower(s: string): (r: string)
    ensures |r| == |s|
    ensures forall i :: 0 <= i < |s| ==> r[i] == LowerChar(s[i])
  {
    seq(|s|, i requires 0 <= i < |s| => LowerChar(s[i]))
  }

  import opened Base
}
