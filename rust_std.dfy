/** Models of the few Rust standard-library operations the core relies on:
    `Option`, `str::contains`, `str::replace` with a one-character pattern,
    `str::trim`, and Unix `Path::join` on plain strings. `Parent`, the
    directory part of a plain-string path, stands for the destination
    directory that `fs::copy` needs to exist; it is not Rust's
    `Path::parent`. */
module RustStd {

  datatype Option<T> = None | Some(value: T) {
    /** `Option::unwrap_or`. */
    function UnwrapOr(default: T): (r: T)
      ensures Some? ==> r == value
      ensures None? ==> r == default
    {
      match this
      case Some(v) => v
      case None => default
    }
  }

  // ---------------------------------------------------------------------
  // Substring search (`str::contains` with a `&str` pattern)
  // ---------------------------------------------------------------------

  /** `p` is a prefix of `s` (`str::starts_with`). */
  predicate StartsWith(s: string, p: string) {
    |p| <= |s| && s[..|p|] == p
  }

  /** `p` is a suffix of `s` (`str::ends_with`). */
  predicate EndsWith(s: string, p: string) {
    |p| <= |s| && s[|s| - |p|..] == p
  }

  /** `text.contains(pat)`: computed by trying every start position in turn.
      A match needs room for the pattern, and the empty pattern is found in
      every text. */
  predicate Contains(text: string, pat: string)
    ensures Contains(text, pat) ==> |pat| <= |text|
    ensures pat == [] ==> Contains(text, pat)
    decreases |text|
  {
    StartsWith(text, pat) || (|text| > 0 && Contains(text[1..], pat))
  }

  /** `pat` occurs in `text` starting at index `i`. */
  predicate OccursAt(text: string, pat: string, i: int) {
    0 <= i && i + |pat| <= |text| && text[i..i + |pat|] == pat
  }

  /** The scanning definition agrees with the positional one: `Contains`
      holds exactly when some start index carries the pattern. */
  lemma {:induction false} ContainsIffOccurs(text: string, pat: string)
    ensures Contains(text, pat) <==> exists i :: OccursAt(text, pat, i)
    decreases |text|
  {
    if |text| > 0 {
      ContainsIffOccurs(text[1..], pat);
      if Contains(text[1..], pat) {
        var i :| OccursAt(text[1..], pat, i);
        assert text[1..][i..i + |pat|] == text[i + 1..i + 1 + |pat|];
        assert OccursAt(text, pat, i + 1);
      }
      if exists i :: OccursAt(text, pat, i) {
        var i :| OccursAt(text, pat, i);
        if i > 0 {
          assert text[1..][i - 1..i - 1 + |pat|] == text[i..i + |pat|];
          assert OccursAt(text[1..], pat, i - 1);
        } else {
          assert StartsWith(text, pat);
        }
      }
      if StartsWith(text, pat) {
        assert OccursAt(text, pat, 0);
      }
    } else {
      if exists i :: OccursAt(text, pat, i) {
        var i :| OccursAt(text, pat, i);
        assert |pat| == 0 && StartsWith(text, pat);
      }
      if StartsWith(text, pat) {
        assert OccursAt(text, pat, 0);
      }
    }
  }

  /** Substring matching ignores context: a pattern occurring anywhere in a
      text, for instance inside a description string, is found. */
  lemma ContainsInfix(before: string, pat: string, after: string)
    ensures Contains(before + pat + after, pat)
  {
    var t := before + pat + after;
    assert t[|before|..|before| + |pat|] == pat;
    assert OccursAt(t, pat, |before|);
    ContainsIffOccurs(t, pat);
  }

  // ---------------------------------------------------------------------
  // `str::replace` with a one-character pattern
  // ---------------------------------------------------------------------

  /** `s.replace(from, to)` for one-character `from` and `to`: every
      occurrence of `from` becomes `to`, everything else stays in place. */
  function ReplaceChar(s: string, from: char, to: char): (r: string)
    ensures |r| == |s|
    ensures forall i :: 0 <= i < |s| ==> r[i] == (if s[i] == from then to else s[i])
  {
    if s == [] then [] else [if s[0] == from then to else s[0]] + ReplaceChar(s[1..], from, to)
  }

  /** After replacing, the replaced character is gone and a second
      replacement changes nothing. */
  lemma ReplaceCharRemoves(s: string, from: char, to: char)
    requires from != to
    ensures from !in ReplaceChar(s, from, to)
    ensures ReplaceChar(ReplaceChar(s, from, to), from, to) == ReplaceChar(s, from, to)
  {
    var r := ReplaceChar(s, from, to);
    forall i | 0 <= i < |r| ensures r[i] != from {
    }
  }

  // ---------------------------------------------------------------------
  // `str::trim`
  // ---------------------------------------------------------------------

  /** `char::is_whitespace`: the Unicode White_Space property. */
  predicate IsWhitespace(c: char) {
    var n := c as int;
    (0x09 <= n <= 0x0D) || n == 0x20 || n == 0x85 || n == 0xA0 || n == 0x1680
    || (0x2000 <= n <= 0x200A) || n == 0x2028 || n == 0x2029 || n == 0x202F
    || n == 0x205F || n == 0x3000
  }

  /** `str::trim_start`. */
  function TrimStart(s: string): (r: string)
    ensures EndsWith(s, r)
    ensures r == [] || !IsWhitespace(r[0])
    ensures forall i :: 0 <= i < |s| - |r| ==> IsWhitespace(s[i])
  {
    if s != [] && IsWhitespace(s[0]) then TrimStart(s[1..]) else s
  }

  /** `str::trim_end`. */
  function TrimEnd(s: string): (r: string)
    ensures StartsWith(s, r)
    ensures r == [] || !IsWhitespace(r[|r| - 1])
    ensures forall i :: |r| <= i < |s| ==> IsWhitespace(s[i])
  {
    if s != [] && IsWhitespace(s[|s| - 1]) then TrimEnd(s[..|s| - 1]) else s
  }

  /** `str::trim`: leading and trailing whitespace removed. What is left
      is a piece of `s` that neither starts nor ends with whitespace. */
  function Trim(s: string): (r: string)
    ensures |r| <= |s|
    ensures r == [] || (!IsWhitespace(r[0]) && !IsWhitespace(r[|r| - 1]))
  {
    var a := TrimStart(s);
    var r := TrimEnd(a);
    assert r != [] ==> r[0] == a[0];
    r
  }

  /** Trimming removes only whitespace, and only at the two ends: the trimmed
      text is the piece of `s` between a whitespace prefix and a whitespace
      suffix. */
  lemma TrimIsInfix(s: string)
    ensures exists i :: TrimmedAt(s, Trim(s), i)
  {
    var a := TrimStart(s);
    var r := TrimEnd(a);
    var i := |s| - |a|;
    assert a == s[i..];
    assert r == a[..|r|];
    assert r == s[i..i + |r|];
    forall k | i + |r| <= k < |s|
      ensures IsWhitespace(s[k])
    {
      assert s[k] == a[k - i];
    }
    assert r == Trim(s) && TrimmedAt(s, r, i);
  }

  /** `r` occurs in `s` at index `i`, and everything before and after it is
      whitespace. */
  predicate TrimmedAt(s: string, r: string, i: int) {
    OccursAt(s, r, i)
    && (forall k :: 0 <= k < i ==> IsWhitespace(s[k]))
    && (forall k :: i + |r| <= k < |s| ==> IsWhitespace(s[k]))
  }

  /** `s.trim().is_empty()`: trimming the start alone already consumes the
      whole string. */
  predicate IsBlank(s: string)
    ensures IsBlank(s) <==> TrimStart(s) == []
  {
    Trim(s) == []
  }

  /** A string trims to nothing exactly when it consists of whitespace only. */
  lemma BlankIffAllWhitespace(s: string)
    ensures IsBlank(s) <==> forall i :: 0 <= i < |s| ==> IsWhitespace(s[i])
  {
    var a := TrimStart(s);
    if a != [] {
      assert a[0] == s[|s| - |a|];
    }
  }

  // ---------------------------------------------------------------------
  // Unix paths as strings
  // ---------------------------------------------------------------------

  /** `Path::new(base).join(part)` on Unix: an absolute `part` replaces
      `base`; otherwise `/` separates the two unless `base` is empty or
      already ends in `/`. At most one separator is added, and the
      result is never shorter than `part`. */
  function Join(base: string, part: string): (r: string)
    ensures |part| <= |r| <= |base| + 1 + |part|
  {
    if StartsWith(part, "/") then part
    else if base == [] || base[|base| - 1] == '/' then base + part
    else base + "/" + part
  }

  /** Joining a relative part keeps the base as prefix and the part as
      suffix, with at most one separator added between them. */
  lemma JoinRelative(base: string, part: string)
    requires !StartsWith(part, "/")
    ensures StartsWith(Join(base, part), base)
    ensures EndsWith(Join(base, part), part)
    ensures |Join(base, part)| == |base| + |part| || |Join(base, part)| == |base| + 1 + |part|
  {
    var r := Join(base, part);
    assert r[..|base|] == base;
    assert r[|r| - |part|..] == part;
  }

  /** Joining never changes how a path ends: a suffix of the part is a
      suffix of the joined path. */
  lemma JoinKeepsSuffix(base: string, part: string, suffix: string)
    requires EndsWith(part, suffix)
    ensures EndsWith(Join(base, part), suffix)
  {
    var r := Join(base, part);
    if !StartsWith(part, "/") {
      JoinRelative(base, part);
      assert r[|r| - |suffix|..] == r[|r| - |part|..][|part| - |suffix|..];
    }
  }

  /** Index of the last `/` in `s`, or -1 when there is none. */
  function LastSlash(s: string): (k: int)
    ensures -1 <= k < |s|
    ensures k >= 0 ==> s[k] == '/'
    ensures forall j :: k < j < |s| ==> s[j] != '/'
  {
    if s == [] then -1
    else if s[|s| - 1] == '/' then |s| - 1
    else LastSlash(s[..|s| - 1])
  }

  /** The directory part of a path: everything before the last `/`, the root
      for a path directly under `/`, and the empty (current) directory for a
      bare file name. It stands for the directory a copy destination lives
      in; unlike Rust's `Path::parent` it does not collapse repeated or
      trailing separators. */
  function Parent(s: string): string {
    var k := LastSlash(s);
    if k < 0 then "" else if k == 0 then "/" else s[..k]
  }

  /** The parent of `base` joined with a bare file name is `base` again. */
  lemma ParentOfJoin(base: string, name: string)
    requires base != [] && base[|base| - 1] != '/'
    requires '/' !in name
    ensures Parent(Join(base, name)) == base
  {
    assert !StartsWith(name, "/") by {
      if |name| >= 1 {
        assert name[..1][0] == name[0] && name[0] in name;
      }
    }
    var r := Join(base, name);
    assert r == base + "/" + name;
    var k := LastSlash(r);
    assert r[|base|] == '/';
    assert forall j :: |base| < j < |r| ==> r[j] == name[j - |base| - 1];
    assert r[..|base|] == base;
  }
}
