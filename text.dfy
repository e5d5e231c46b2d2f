/** String helpers with JavaScript's semantics: `String.prototype.trim`,
    `startsWith`, and the case-insensitive `.pdf` suffix test. */
module Text {

  /** The characters `trim` removes: ECMAScript WhiteSpace and LineTerminator. */
  predicate IsJsWhitespace(c: char) {
    || c == '\t' || c == '\n' || c == '\r' || c == ' '
    || c == '\U{000B}' || c == '\U{000C}' || c == '\U{00A0}' || c == '\U{1680}'
    || ('\U{2000}' <= c <= '\U{200A}')
    || c == '\U{2028}' || c == '\U{2029}' || c == '\U{202F}' || c == '\U{205F}'
    || c == '\U{3000}' || c == '\U{FEFF}'
  }

  predicate AllWhitespace(s: string) {
    forall k :: 0 <= k < |s| ==> IsJsWhitespace(s[k])
  }

  lemma AllWhitespaceCons(c: char, s: string)
    requires IsJsWhitespace(c) && AllWhitespace(s)
    ensures AllWhitespace([c] + s)
  {
    forall k | 0 <= k < |[c] + s| ensures IsJsWhitespace(([c] + s)[k]) {
      if k > 0 {
        assert ([c] + s)[k] == s[k - 1];
      }
    }
  }

  lemma AllWhitespaceSnoc(s: string, c: char)
    requires AllWhitespace(s) && IsJsWhitespace(c)
    ensures AllWhitespace(s + [c])
  {
    forall k | 0 <= k < |s + [c]| ensures IsJsWhitespace((s + [c])[k]) {
      if k < |s| {
        assert (s + [c])[k] == s[k];
      }
    }
  }

  /** Drops leading whitespace: the result is the suffix of `s` that starts at
      its first non-whitespace character. */
  function TrimStart(s: string): (r: string)
    ensures |r| <= |s| && r == s[|s| - |r|..]
    ensures AllWhitespace(s[..|s| - |r|])
    ensures r != [] ==> !IsJsWhitespace(r[0])
  {
    if s != [] && IsJsWhitespace(s[0]) then
      var r := TrimStart(s[1..]);
      assert s[..|s| - |r|] == [s[0]] + s[1..][..|s[1..]| - |r|];
      AllWhitespaceCons(s[0], s[1..][..|s[1..]| - |r|]);
      r
    else s
  }

  /** Drops trailing whitespace: the result is the prefix of `s` that ends at
      its last non-whitespace character. */
  function TrimEnd(s: string): (r: string)
    ensures |r| <= |s| && r == s[..|r|]
    ensures AllWhitespace(s[|r|..])
    ensures r != [] ==> !IsJsWhitespace(r[|r| - 1])
  {
    if s != [] && IsJsWhitespace(s[|s| - 1]) then
      var r := TrimEnd(s[..|s| - 1]);
      assert s[|r|..] == s[..|s| - 1][|r|..] + [s[|s| - 1]];
      AllWhitespaceSnoc(s[..|s| - 1][|r|..], s[|s| - 1]);
      r
    else s
  }

  /** `s.trim()`. */
  function Trim(s: string): string {
    TrimEnd(TrimStart(s))
  }

  /** `trim` keeps exactly the part of `s` between its first and its last
      non-whitespace character. */
  lemma TrimIsCore(s: string)
    ensures exists i, j ::
      && 0 <= i <= j <= |s| && Trim(s) == s[i..j]
      && AllWhitespace(s[..i]) && AllWhitespace(s[j..])
    ensures Trim(s) != [] ==> !IsJsWhitespace(Trim(s)[0]) && !IsJsWhitespace(Trim(s)[|Trim(s)| - 1])
  {
    var t := TrimStart(s);
    var i := |s| - |t|;
    var e := TrimEnd(t);
    var j := i + |e|;
    TrimSlices(s, t, e);
    if e != [] {
      assert e[0] == t[0];
    }
  }

  /** The slice arithmetic behind `TrimIsCore`, stated on the two trims'
      contracts alone. */
  lemma TrimSlices(s: string, t: string, e: string)
    requires |t| <= |s| && t == s[|s| - |t|..] && AllWhitespace(s[..|s| - |t|])
    requires |e| <= |t| && e == t[..|e|] && AllWhitespace(t[|e|..])
    ensures var i := |s| - |t|; var j := i + |e|;
      && 0 <= i <= j <= |s| && e == s[i..j]
      && AllWhitespace(s[..i]) && AllWhitespace(s[j..])
  {
    var i := |s| - |t|;
    var j := i + |e|;
    assert s[i..][..|e|] == s[i..j];
    assert t[|e|..] == s[j..];
  }

  /** A name trims to nothing exactly when it is all whitespace. */
  lemma TrimEmptyIff(s: string)
    ensures Trim(s) == "" <==> AllWhitespace(s)
  {
    var t := TrimStart(s);
    if Trim(s) == "" {
      assert t[0..] == t;
      assert t == [];
      assert s[..|s|] == s;
    }
  }

  /** Trimming twice is trimming once. */
  lemma TrimIdempotent(s: string)
    ensures Trim(Trim(s)) == Trim(s)
  {
    var r := Trim(s);
    TrimIsCore(s);
    assert TrimStart(r) == r;
    assert TrimEnd(r) == r;
  }

  /** `s.startsWith(prefix)`. */
  predicate StartsWith(s: string, prefix: string) {
    |prefix| <= |s| && s[..|prefix|] == prefix
  }

  predicate IsP(c: char) { c == 'p' || c == 'P' }
  predicate IsD(c: char) { c == 'd' || c == 'D' }
  predicate IsF(c: char) { c == 'f' || c == 'F' }

  /** The regular expression `/\.pdf$/i` matches: the last four characters are
      a dot followed by `pdf` in any letter case. */
  predicate EndsWithPdf(s: string) {
    |s| >= 4 && s[|s| - 4] == '.' && IsP(s[|s| - 3]) && IsD(s[|s| - 2]) && IsF(s[|s| - 1])
  }

  /** `s.replace(/\.pdf$/i, '')`: removes one trailing `.pdf`, if present. */
  function StripPdfExtension(s: string): string {
    if EndsWithPdf(s) then s[..|s| - 4] else s
  }

  /** The stripped name is a prefix of the original and what was removed is
      either nothing (no `.pdf` at the end) or exactly one `.pdf`. */
  lemma StripPdfExtensionSplits(s: string)
    ensures var b := StripPdfExtension(s);
      |b| <= |s| && s == b + s[|b|..]
      && (s[|b|..] == "" <==> !EndsWithPdf(s))
      && (s[|b|..] != "" ==> |s[|b|..]| == 4 && EndsWithPdf(s[|b|..]))
  {
    var b := StripPdfExtension(s);
    assert s == b + s[|b|..];
  }
}
