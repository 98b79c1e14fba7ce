/**
 * Python string operations that the three launchers use on user input and on
 * script text: `str.strip()`, `str.replace`, `str.split`/`str.join`, the
 * ASCII-only comprehension of `sanitize_script`, and truthiness of an
 * optional string.
 */
module Text {

  datatype Option<+T> = None | Some(value: T)

  /** Python truthiness of a value that is either `None` or a `str`. */
  predicate Truthy(o: Option<string>) {
    o.Some? && o.value != ""
  }

  // ---------------------------------------------------------------------------
  // Characters
  // ---------------------------------------------------------------------------

  /** Python's `str.isspace()` for one character: the characters `str.strip()` removes. */
  predicate IsSpace(c: char) {
    var n := c as int;
    || 0x09 <= n <= 0x0D
    || 0x1C <= n <= 0x20
    || n == 0x85 || n == 0xA0 || n == 0x1680
    || 0x2000 <= n <= 0x200A
    || n == 0x2028 || n == 0x2029 || n == 0x202F || n == 0x205F || n == 0x3000
  }

  /** An ASCII decimal digit (the model's reading of the regex class `\d`). */
  predicate IsDigit(c: char) {
    '0' <= c <= '9'
  }

  /** The regex `\d+`: one or more decimal digits. */
  predicate IsDigits(s: string) {
    |s| > 0 && forall i :: 0 <= i < |s| ==> IsDigit(s[i])
  }

  predicate IsAscii(c: char) {
    (c as int) < 128
  }

  predicate AllAscii(s: string) {
    forall i :: 0 <= i < |s| ==> IsAscii(s[i])
  }

  /** Two ASCII texts put together are ASCII. */
  lemma AllAsciiAppend(a: string, b: string)
    requires AllAscii(a) && AllAscii(b)
    ensures AllAscii(a + b)
  {
    forall i | 0 <= i < |a + b|
      ensures IsAscii((a + b)[i])
    {
      if i >= |a| {
        assert (a + b)[i] == b[i - |a|];
      }
    }
  }

  predicate AllSpace(s: string) {
    forall i :: 0 <= i < |s| ==> IsSpace(s[i])
  }

  // ---------------------------------------------------------------------------
  // str.strip()
  // ---------------------------------------------------------------------------

  /** Neither end of `s` is whitespace. */
  predicate Stripped(s: string) {
    s == [] || (!IsSpace(s[0]) && !IsSpace(s[|s| - 1]))
  }

  /** `s.lstrip()`: the suffix of `s` left after its leading whitespace. */
  function TrimStart(s: string): (r: string)
    ensures |r| <= |s| && r == s[|s| - |r|..]
    ensures AllSpace(s[..|s| - |r|])
    ensures r == [] || !IsSpace(r[0])
    decreases |s|
  {
    if s != [] && IsSpace(s[0]) then
      var r := TrimStart(s[1..]);
      assert s[..|s| - |r|] == [s[0]] + s[1..][..|s| - 1 - |r|];
      r
    else s
  }

  /** `s.rstrip()`: the prefix of `s` left before its trailing whitespace. */
  function TrimEnd(s: string): (r: string)
    ensures |r| <= |s| && r == s[..|r|]
    ensures AllSpace(s[|r|..])
    ensures r == [] || !IsSpace(r[|r| - 1])
    decreases |s|
  {
    if s != [] && IsSpace(s[|s| - 1]) then
      var r := TrimEnd(s[..|s| - 1]);
      assert s[|r|..] == s[..|s| - 1][|r|..] + [s[|s| - 1]];
      r
    else s
  }

  /**
   * `s.strip()`: the slice of `s` that starts after its leading whitespace
   * (`lead` characters) and ends before its trailing whitespace, with neither
   * end of the result whitespace.
   */
  function Strip(s: string): (r: string)
    ensures Stripped(r)
    ensures |r| <= |s|
    ensures var lead := |s| - |TrimStart(s)|;
      && lead + |r| <= |s|
      && r == s[lead..lead + |r|]
      && AllSpace(s[..lead])
      && AllSpace(s[lead + |r|..])
  {
    var t := TrimStart(s);
    var r := TrimEnd(t);
    SuffixPrefixSlices(s, t, r);
    r
  }

  /** A prefix `r` of a suffix `t` of `s` is a slice of `s`, and what follows `r` in `t` follows it in `s`. */
  lemma SuffixPrefixSlices(s: string, t: string, r: string)
    requires |t| <= |s| && t == s[|s| - |t|..]
    requires |r| <= |t| && r == t[..|r|]
    ensures r == s[|s| - |t|..|s| - |t| + |r|]
    ensures s[|s| - |t| + |r|..] == t[|r|..]
  {
  }

  /** A string with no whitespace at either end is left as it is. */
  lemma {:induction false} StripKeepsStripped(s: string)
    requires Stripped(s)
    ensures Strip(s) == s
  {
    assert TrimStart(s) == s;
    assert TrimEnd(s) == s;
  }

  /** Stripping leaves nothing exactly when the text is all whitespace. */
  lemma StripEmptyIffAllSpace(s: string)
    ensures Strip(s) == [] <==> AllSpace(s)
  {
    var t := TrimStart(s);
    var k := |s| - |t|;
    if t != [] {
      assert t[0] == s[k];
    }
    if Strip(s) == [] {
      assert AllSpace(t[0..]);
      assert t[0..] == t;
      assert t == [];
      assert s[..k] == s;
    }
  }

  /** Two spaces strip to nothing. */
  lemma StripSpaces()
    ensures Strip("  ") == []
  {
    assert AllSpace("  ") by {
      assert IsSpace(' ');
    }
    StripEmptyIffAllSpace("  ");
  }

  /** A text with one space on each side strips to the text, when the text itself is stripped and not empty. */
  lemma StripPadded(s: string)
    requires s != [] && Stripped(s)
    ensures Strip([' '] + s + [' ']) == s
  {
    var t := s + [' '];
    assert [' '] + s + [' '] == [' '] + t;
    TrimStartSpace(t);
    TrimStartKeeps(t);
    TrimEndSpace(s);
    StripKeepsStripped(s);
    TrimStartKeeps(s);
  }

  lemma TrimStartSpace(t: string)
    ensures TrimStart([' '] + t) == TrimStart(t)
  {
    var p := [' '] + t;
    assert p[0] == ' ';
    assert IsSpace(p[0]);
    assert p[1..] == t;
  }

  lemma TrimStartKeeps(t: string)
    requires t != [] && !IsSpace(t[0])
    ensures TrimStart(t) == t
  {
  }

  lemma TrimEndSpace(s: string)
    ensures TrimEnd(s + [' ']) == TrimEnd(s)
  {
    assert (s + [' '])[..|s|] == s;
  }

  /** Stripping twice is stripping once. */
  lemma StripIdempotent(s: string)
    ensures Strip(Strip(s)) == Strip(s)
  {
    StripKeepsStripped(Strip(s));
  }

  // ---------------------------------------------------------------------------
  // ''.join(c for c in content if ord(c) < 128)
  // ---------------------------------------------------------------------------

  /** The characters of `s` whose code point is below 128, in their order. */
  function AsciiOnly(s: string): (r: string)
    ensures AllAscii(r)
    ensures |r| <= |s|
    decreases |s|
  {
    if s == [] then [] else (if IsAscii(s[0]) then [s[0]] else []) + AsciiOnly(s[1..])
  }

  /** The filter works piecewise: it commutes with concatenation, so the kept characters stay in order. */
  lemma {:induction false} AsciiOnlyAppend(a: string, b: string)
    ensures AsciiOnly(a + b) == AsciiOnly(a) + AsciiOnly(b)
    decreases |a|
  {
    if a != [] {
      assert (a + b)[1..] == a[1..] + b;
      AsciiOnlyAppend(a[1..], b);
    } else {
      assert a + b == b;
    }
  }

  /** An all-ASCII text passes through unchanged. */
  lemma {:induction false} AsciiOnlyKeepsAscii(s: string)
    requires AllAscii(s)
    ensures AsciiOnly(s) == s
    decreases |s|
  {
    if s != [] {
      AsciiOnlyKeepsAscii(s[1..]);
    }
  }

  /** Filtering an already filtered text changes nothing. */
  lemma AsciiOnlyIdempotent(s: string)
    ensures AsciiOnly(AsciiOnly(s)) == AsciiOnly(s)
  {
    AsciiOnlyKeepsAscii(AsciiOnly(s));
  }

  /** Every ASCII character of the input is kept as often as it occurs; nothing else survives. */
  lemma {:induction false} AsciiOnlyCounts(s: string, c: char)
    ensures multiset(AsciiOnly(s))[c] == if IsAscii(c) then multiset(s)[c] else 0
    decreases |s|
  {
    if s != [] {
      AsciiOnlyCounts(s[1..], c);
      assert s == [s[0]] + s[1..];
      assert multiset(s) == multiset([s[0]]) + multiset(s[1..]);
    }
  }

  // ---------------------------------------------------------------------------
  // Substrings, str.replace, str.split, str.join
  // ---------------------------------------------------------------------------

  /** `m in s` for strings: `m` occurs somewhere in `s`. */
  predicate Occurs(m: string, s: string)
    decreases |s|
  {
    m <= s || (s != [] && Occurs(m, s[1..]))
  }

  /** `s.replace(m, r)`: scan left to right, replacing each occurrence of `m` not overlapping an earlier one. */
  function ReplaceAll(s: string, m: string, r: string): (t: string)
    requires m != []
    ensures !Occurs(m, s) ==> t == s
    decreases |s|
  {
    if m <= s then r + ReplaceAll(s[|m|..], m, r)
    else if s == [] then []
    else [s[0]] + ReplaceAll(s[1..], m, r)
  }

  /** `s.split(m)`: the pieces between the occurrences `ReplaceAll` finds. */
  function SplitOn(s: string, m: string): (pieces: seq<string>)
    requires m != []
    ensures |pieces| >= 1
    decreases |s|
  {
    if m <= s then [""] + SplitOn(s[|m|..], m)
    else if s == [] then [""]
    else
      var rest := SplitOn(s[1..], m);
      [[s[0]] + rest[0]] + rest[1..]
  }

  /** `sep.join(pieces)` */
  function JoinWith(pieces: seq<string>, sep: string): string
    requires |pieces| >= 1
    decreases |pieces|
  {
    if |pieces| == 1 then pieces[0] else pieces[0] + sep + JoinWith(pieces[1..], sep)
  }

  lemma {:induction false} JoinWithConsHead(c: char, p: seq<string>, sep: string)
    requires |p| >= 1
    ensures JoinWith([[c] + p[0]] + p[1..], sep) == [c] + JoinWith(p, sep)
  {
    var q := [[c] + p[0]] + p[1..];
    if |p| > 1 {
      assert q[1..] == p[1..];
    }
  }

  /** Replacing is splitting at the marker and joining the pieces with the replacement. */
  lemma {:induction false} ReplaceAllIsJoin(s: string, m: string, r: string)
    requires m != []
    ensures ReplaceAll(s, m, r) == JoinWith(SplitOn(s, m), r)
    decreases |s|
  {
    if m <= s {
      ReplaceAllIsJoin(s[|m|..], m, r);
      var p := SplitOn(s[|m|..], m);
      assert ([""] + p)[1..] == p;
    } else if s != [] {
      ReplaceAllIsJoin(s[1..], m, r);
      JoinWithConsHead(s[0], SplitOn(s[1..], m), r);
    }
  }

  /** Replacing a marker by itself changes nothing. */
  lemma {:induction false} ReplaceAllSelf(s: string, m: string)
    requires m != []
    ensures ReplaceAll(s, m, m) == s
    decreases |s|
  {
    if m <= s {
      ReplaceAllSelf(s[|m|..], m);
      assert s == m + s[|m|..];
    } else if s != [] {
      ReplaceAllSelf(s[1..], m);
      assert s == [s[0]] + s[1..];
    }
  }

  lemma {:induction false} SplitOnFirstIsPrefix(s: string, m: string)
    requires m != []
    ensures SplitOn(s, m)[0] <= s
    decreases |s|
  {
    if !(m <= s) && s != [] {
      SplitOnFirstIsPrefix(s[1..], m);
    }
  }

  /** No piece `SplitOn` produces contains the marker. */
  lemma {:induction false} SplitOnPiecesFree(s: string, m: string)
    requires m != []
    ensures forall k :: 0 <= k < |SplitOn(s, m)| ==> !Occurs(m, SplitOn(s, m)[k])
    decreases |s|
  {
    var pieces := SplitOn(s, m);
    if m <= s {
      SplitOnPiecesFree(s[|m|..], m);
      assert !Occurs(m, "");
      assert pieces[1..] == SplitOn(s[|m|..], m);
    } else if s != [] {
      var rest := SplitOn(s[1..], m);
      SplitOnPiecesFree(s[1..], m);
      SplitOnFirstIsPrefix(s[1..], m);
      var head := [s[0]] + rest[0];
      assert head[1..] == rest[0];
      assert head <= s;
      assert !Occurs(m, head);
      assert pieces[1..] == rest[1..];
      forall k | 0 <= k < |pieces|
        ensures !Occurs(m, pieces[k])
      {
        if k > 0 {
          assert pieces[k] == rest[k];
        }
      }
    } else {
      assert !Occurs(m, "");
    }
  }

  /**
   * What `s.replace(m, r)` does, in terms of pieces: `s` is the pieces joined by
   * `m`, no piece contains `m` (every occurrence was replaced), and the result
   * is the same pieces joined by `r`.
   */
  lemma ReplaceAllPieces(s: string, m: string, r: string)
    requires m != []
    ensures JoinWith(SplitOn(s, m), m) == s
    ensures forall k :: 0 <= k < |SplitOn(s, m)| ==> !Occurs(m, SplitOn(s, m)[k])
    ensures ReplaceAll(s, m, r) == JoinWith(SplitOn(s, m), r)
  {
    ReplaceAllIsJoin(s, m, m);
    ReplaceAllSelf(s, m);
    SplitOnPiecesFree(s, m);
    ReplaceAllIsJoin(s, m, r);
  }

  /** For a one-character marker, occurring is membership. */
  lemma {:induction false} OccursChar(c: char, s: string)
    ensures Occurs([c], s) <==> c in s
    decreases |s|
  {
    if s != [] {
      OccursChar(c, s[1..]);
      assert s == [s[0]] + s[1..];
    }
  }

  lemma {:induction false} SplitOnCharAfterPiece(a: string, c: char, t: string)
    requires c !in a
    ensures SplitOn(a + [c] + t, [c]) == [a] + SplitOn(t, [c])
    decreases |a|
  {
    var s := a + [c] + t;
    if a == [] {
      assert s == [c] + t;
      assert s[1..] == t;
    } else {
      assert s[0] == a[0] && a[0] in a;
      assert s[1..] == a[1..] + [c] + t;
      SplitOnCharAfterPiece(a[1..], c, t);
      assert [s[0]] + a[1..] == a;
    }
  }

  lemma {:induction false} SplitOnCharNoSep(a: string, c: char)
    requires c !in a
    ensures SplitOn(a, [c]) == [a]
    decreases |a|
  {
    if a != [] {
      assert a[0] in a;
      SplitOnCharNoSep(a[1..], c);
      assert [a[0]] + a[1..] == a;
    }
  }

  /** Splitting at a single character undoes joining with it, when no piece contains that character. */
  lemma {:induction false} SplitJoinChar(pieces: seq<string>, c: char)
    requires |pieces| >= 1
    requires forall k :: 0 <= k < |pieces| ==> c !in pieces[k]
    ensures SplitOn(JoinWith(pieces, [c]), [c]) == pieces
    decreases |pieces|
  {
    if |pieces| == 1 {
      SplitOnCharNoSep(pieces[0], c);
    } else {
      SplitJoinChar(pieces[1..], c);
      SplitOnCharAfterPiece(pieces[0], c, JoinWith(pieces[1..], [c]));
    }
  }

  /** Splitting at a single character: the pieces rejoin to the text and none contains the character. */
  lemma SplitCharPieces(s: string, c: char)
    ensures JoinWith(SplitOn(s, [c]), [c]) == s
    ensures forall k :: 0 <= k < |SplitOn(s, [c])| ==> c !in SplitOn(s, [c])[k]
  {
    ReplaceAllPieces(s, [c], [c]);
    forall k | 0 <= k < |SplitOn(s, [c])|
      ensures c !in SplitOn(s, [c])[k]
    {
      OccursChar(c, SplitOn(s, [c])[k]);
    }
  }

  /** Replacing a character that does not occur changes nothing. */
  lemma {:induction false} ReplaceAllAbsentChar(s: string, c: char, r: string)
    requires c !in s
    ensures ReplaceAll(s, [c], r) == s
    decreases |s|
  {
    if s != [] {
      assert s[0] in s;
      ReplaceAllAbsentChar(s[1..], c, r);
      assert s == [s[0]] + s[1..];
    }
  }
}
