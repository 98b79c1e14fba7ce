/**
 * How the single-file download hands the link to the stock PowerShell script.
 * All three launchers read the script text and escape the link for a
 * single-quoted PowerShell string literal by doubling every `'`. They then
 * replace every occurrence of the line start `$telegramUrl = Read-Host` with
 * `$telegramUrl = '<escaped link>'`. The result is written as the wrapper
 * script, so the script no longer prompts for the link.
 *
 * The module also models how PowerShell reads a single-quoted literal back
 * (`ReadLiteral`). The string-literal grammar of the Windows PowerShell
 * Language Specification (section 2.3.5.2) counts five characters as single
 * quotes: U+0027 and the typographic quotes U+2018 to U+201B. Inside the
 * literal, two quote characters in a row stand for one quote. A lone quote
 * character ends the literal.
 */
module PsLiteral {
  import opened Text

  /** The prompt line that the wrapper replaces. */
  const Marker: string := "$telegramUrl = Read-Host"

  /** `url.replace("'", "''")` */
  function EscapeQuotes(url: string): (e: string)
    ensures '\'' !in url ==> e == url
  {
    var e := ReplaceAll(url, "'", "''");
    assert '\'' !in url ==> e == url by {
      if '\'' !in url {
        ReplaceAllAbsentChar(url, '\'', "''");
      }
    }
    e
  }

  /** `f"$telegramUrl = '{escaped_url}'"` */
  function Assignment(url: string): string {
    "$telegramUrl = '" + EscapeQuotes(url) + "'"
  }

  /**
   * How `download_single_file` ends: cancelled or left empty, refused because
   * the link does not start with `http://` or `https://`, refused because it
   * is not a message link, or a wrapper script written with this content.
   */
  datatype SingleFileOutcome = Cancelled | NotHttp | NotMessageLink | Wrapper(script: string)

  /** The wrapper script text: the stock script with every prompt line replaced by the assignment. */
  function SingleFileScript(script: string, url: string): (w: string)
    ensures w == JoinWith(SplitOn(script, Marker), Assignment(url))
    ensures !Occurs(Marker, script) ==> w == script
  {
    ReplaceAllIsJoin(script, Marker, Assignment(url));
    ReplaceAll(script, Marker, Assignment(url))
  }

  // ---------------------------------------------------------------------------
  // Properties of the escaping and of the substitution
  // ---------------------------------------------------------------------------

  /** Each `'` becomes `''`, every other character is copied in order. */
  lemma {:induction false} EscapeQuotesUnfold(c: char, s: string)
    ensures EscapeQuotes([c] + s) == (if c == '\'' then "''" else [c]) + EscapeQuotes(s)
  {
    var t := [c] + s;
    assert t[1..] == s;
    if c == '\'' {
      assert "'" <= t;
    } else {
      assert t[0] == c;
      assert !("'" <= t);
    }
  }

  /** The escaped link is longer than the link by exactly its number of quotes. */
  lemma {:induction false} EscapeQuotesLength(url: string)
    ensures |EscapeQuotes(url)| == |url| + multiset(url)['\'']
    decreases |url|
  {
    if url != [] {
      EscapeQuotesLength(url[1..]);
      EscapeQuotesUnfold(url[0], url[1..]);
      assert url == [url[0]] + url[1..];
      assert multiset(url) == multiset([url[0]]) + multiset(url[1..]);
    }
  }

  /** Different links give different escaped texts. */
  lemma {:induction false} EscapeQuotesInjective(a: string, b: string)
    requires EscapeQuotes(a) == EscapeQuotes(b)
    ensures a == b
    decreases |a|
  {
    EscapeQuotesLength(a);
    EscapeQuotesLength(b);
    if a != [] && b != [] {
      EscapeQuotesUnfold(a[0], a[1..]);
      EscapeQuotesUnfold(b[0], b[1..]);
      assert a == [a[0]] + a[1..] && b == [b[0]] + b[1..];
      var ea, eb := EscapeQuotes(a), EscapeQuotes(b);
      assert ea[0] == a[0] && eb[0] == b[0];
      if a[0] == '\'' {
        assert ea[2..] == EscapeQuotes(a[1..]) && eb[2..] == EscapeQuotes(b[1..]);
      } else {
        assert ea[1..] == EscapeQuotes(a[1..]) && eb[1..] == EscapeQuotes(b[1..]);
      }
      EscapeQuotesInjective(a[1..], b[1..]);
    }
  }

  /**
   * The wrapper replaces the prompt everywhere. The script is the pieces
   * between prompt lines joined by the prompt line. No piece still contains
   * the prompt. The wrapper is the same pieces joined by the assignment.
   */
  lemma SingleFileScriptReplacesEveryPrompt(script: string, url: string)
    ensures JoinWith(SplitOn(script, Marker), Marker) == script
    ensures forall k :: 0 <= k < |SplitOn(script, Marker)| ==> !Occurs(Marker, SplitOn(script, Marker)[k])
    ensures SingleFileScript(script, url) == JoinWith(SplitOn(script, Marker), Assignment(url))
  {
    ReplaceAllPieces(script, Marker, Assignment(url));
  }

  // ---------------------------------------------------------------------------
  // How PowerShell reads a single-quoted literal
  // ---------------------------------------------------------------------------

  /** A character PowerShell accepts as a single quote: `'` or one of U+2018..U+201B. */
  predicate IsPsQuote(c: char) {
    c == '\'' || 0x2018 <= (c as int) <= 0x201B
  }

  /**
   * Reads the rest of a single-quoted literal whose opening quote has been
   * consumed: the literal's value and the text after its closing quote, or
   * `None` if the literal is never closed.
   */
  function ReadLiteral(e: string): Option<(string, string)>
    decreases |e|
  {
    if e == [] then None
    else if IsPsQuote(e[0]) then
      if |e| >= 2 && IsPsQuote(e[1]) then
        match ReadLiteral(e[2..])
        case None => None
        case Some((v, rest)) => Some(([e[1]] + v, rest))
      else Some(([], e[1..]))
    else
      match ReadLiteral(e[1..])
      case None => None
      case Some((v, rest)) => Some(([e[0]] + v, rest))
  }

  /** Doubles every character PowerShell treats as a single quote. */
  function EscapeAllQuotes(s: string): (e: string)
    ensures |e| >= |s|
    decreases |s|
  {
    if s == [] then []
    else (if IsPsQuote(s[0]) then [s[0], s[0]] else [s[0]]) + EscapeAllQuotes(s[1..])
  }

  /**
   * With every quote character doubled, PowerShell reads the literal back as
   * exactly the original text. The literal closes at the quote written after
   * it, and what follows that quote stays outside it.
   */
  lemma {:induction false} EscapeAllQuotesRoundTrip(s: string, rest: string)
    requires rest == [] || !IsPsQuote(rest[0])
    ensures ReadLiteral(EscapeAllQuotes(s) + "'" + rest) == Some((s, rest))
    decreases |s|
  {
    var e := EscapeAllQuotes(s) + "'" + rest;
    if s == [] {
      assert e == "'" + rest;
      assert e[1..] == rest;
    } else {
      EscapeAllQuotesRoundTrip(s[1..], rest);
      var tail := EscapeAllQuotes(s[1..]) + "'" + rest;
      if IsPsQuote(s[0]) {
        assert e == [s[0], s[0]] + tail;
        assert e[2..] == tail;
      } else {
        assert e == [s[0]] + tail;
        assert e[1..] == tail;
      }
      assert [s[0]] + s[1..] == s;
    }
  }

  /** No typographic quotes: the only quote character, if any, is `'`. */
  predicate OnlyPlainQuotes(s: string) {
    forall i :: 0 <= i < |s| ==> IsPsQuote(s[i]) ==> s[i] == '\''
  }

  /** On text without typographic quotes, doubling `'` already doubles every quote character. */
  lemma {:induction false} EscapeQuotesMatchesOnPlainQuotes(s: string)
    requires OnlyPlainQuotes(s)
    ensures EscapeQuotes(s) == EscapeAllQuotes(s)
    decreases |s|
  {
    if s != [] {
      EscapeQuotesUnfold(s[0], s[1..]);
      assert s == [s[0]] + s[1..];
      assert OnlyPlainQuotes(s[1..]) by {
        forall i | 0 <= i < |s[1..]| ensures IsPsQuote(s[1..][i]) ==> s[1..][i] == '\'' {
          assert s[1..][i] == s[i + 1];
        }
      }
      EscapeQuotesMatchesOnPlainQuotes(s[1..]);
    }
  }

  /** ASCII text has no typographic quotes. */
  lemma AsciiHasOnlyPlainQuotes(s: string)
    requires AllAscii(s)
    ensures OnlyPlainQuotes(s)
  {
  }

  /** The as-written escaping is sound for links without typographic quotes. */
  lemma EscapeQuotesRoundTripPlain(url: string, rest: string)
    requires OnlyPlainQuotes(url)
    requires rest == [] || !IsPsQuote(rest[0])
    ensures ReadLiteral(EscapeQuotes(url) + "'" + rest) == Some((url, rest))
  {
    EscapeQuotesMatchesOnPlainQuotes(url);
    EscapeAllQuotesRoundTrip(url, rest);
  }

  /** Characters that are not quotes are read verbatim up to the rest of the literal. */
  lemma {:induction false} ReadLiteralPlainPrefix(p: string, e: string)
    requires forall i :: 0 <= i < |p| ==> !IsPsQuote(p[i])
    requires ReadLiteral(e).Some?
    ensures ReadLiteral(p + e) == Some((p + ReadLiteral(e).value.0, ReadLiteral(e).value.1))
    decreases |p|
  {
    if p != [] {
      assert !IsPsQuote(p[0]);
      assert forall i :: 0 <= i < |p[1..]| ==> !IsPsQuote(p[1..][i]) by {
        forall i | 0 <= i < |p[1..]| ensures !IsPsQuote(p[1..][i]) {
          assert p[1..][i] == p[i + 1];
        }
      }
      ReadLiteralPlainPrefix(p[1..], e);
      var (v, rest) := ReadLiteral(e).value;
      assert (p + e)[0] == p[0];
      assert (p + e)[1..] == p[1..] + e;
      assert ReadLiteral(p[1..] + e) == Some((p[1..] + v, rest));
      assert [p[0]] + (p[1..] + v) == p + v;
    } else {
      var (v, rest) := ReadLiteral(e).value;
      assert p + e == e && p + v == v;
      assert ReadLiteral(e) == Some((v, rest));
    }
  }

  // ---------------------------------------------------------------------------
  // Quoting that holds for every link and every path
  // ---------------------------------------------------------------------------

  /** The assignment with every PowerShell quote character doubled. */
  function CorrectedAssignment(url: string): string {
    "$telegramUrl = '" + EscapeAllQuotes(url) + "'"
  }

  /**
   * The literal in the corrected assignment reads back as the link, for every
   * link. The rest of the line stays outside the literal.
   */
  lemma CorrectedAssignmentReadsBack(url: string, rest: string)
    requires rest == [] || !IsPsQuote(rest[0])
    ensures var line := CorrectedAssignment(url) + rest;
      |line| > 16 && line[..16] == "$telegramUrl = '" && ReadLiteral(line[16..]) == Some((url, rest))
  {
    var line := CorrectedAssignment(url) + rest;
    assert line[16..] == EscapeAllQuotes(url) + "'" + rest;
    EscapeAllQuotesRoundTrip(url, rest);
  }

  /**
   * The inline command of `login_telegram`: `& '<tdl.exe path>' login`. The
   * path is put between single quotes as it is, without escaping.
   */
  function LoginCommand(tdlExe: string): string {
    "& '" + tdlExe + "' login"
  }

  /** A path with an apostrophe ends the literal early: PowerShell sees only `C:\O` as the program. */
  lemma LoginCommandApostrophe()
    ensures var command := LoginCommand("C:\\O'Brien\\tdl.exe");
      command[..3] == "& '" && ReadLiteral(command[3..]) == Some(("C:\\O", "Brien\\tdl.exe' login"))
  {
    var command := LoginCommand("C:\\O'Brien\\tdl.exe");
    assert command[3..] == "C:\\O" + ("'Brien\\tdl.exe' login");
    var e := "'Brien\\tdl.exe' login";
    assert e[1..] == "Brien\\tdl.exe' login";
    assert ReadLiteral(e) == Some(([], e[1..]));
    assert forall i :: 0 <= i < |"C:\\O"| ==> !IsPsQuote("C:\\O"[i]);
    ReadLiteralPlainPrefix("C:\\O", e);
    assert "C:\\O" + [] == "C:\\O";
  }

  /** The login command with the path's quote characters doubled. */
  function EscapedLoginCommand(tdlExe: string): string {
    "& '" + EscapeAllQuotes(tdlExe) + "' login"
  }

  /** Every path reads back whole from the escaped login command, followed by ` login`. */
  lemma EscapedLoginCommandReadsBack(tdlExe: string)
    ensures var command := EscapedLoginCommand(tdlExe);
      |command| > 3 && command[..3] == "& '" && ReadLiteral(command[3..]) == Some((tdlExe, " login"))
  {
    var command := EscapedLoginCommand(tdlExe);
    assert command[3..] == EscapeAllQuotes(tdlExe) + "'" + " login";
    EscapeAllQuotesRoundTrip(tdlExe, " login");
  }
}
