/**
 * The launcher `GUI/tdl_gui_test.py`. Its single-file check only asks for an
 * `http://` or `https://` start. Its base-link and full-chat checks have no
 * topic forms. Its string dialogs strip the entry. It picks the shell with
 * `ensure_pwsh`, and it always keeps the PowerShell window open.
 */
module TdlGuiTest {
  import opened Text
  import opened Dialogs
  import opened TmeLinks
  import opened PsLiteral
  import opened Handoff
  import opened Launching

  // ---------------------------------------------------------------------------
  // Link recognisers
  // ---------------------------------------------------------------------------

  /**
   * The single-file check `re.match(r"^https?://", url)`: only the scheme is
   * looked at, so every text with a `t.me` prefix passes.
   */
  predicate IsSingleFileUrl(url: string)
    ensures SplitUrl(url).Some? ==> IsSingleFileUrl(url)
  {
    assert SplitUrl(url).Some? ==> HasHttpScheme(url) by {
      if SplitUrl(url).Some? {
        SplitUrlHasScheme(url);
      }
    }
    HasHttpScheme(url)
  }

  /** The two regexes of `download_range`: `c/<d>/` or `<username>/`. */
  predicate IsBaseLink(link: string)
    ensures IsBaseLink(link) ==> HasHttpScheme(link)
  {
    match SplitUrl(link)
    case None => false
    case Some((_, segs)) =>
      SplitUrlHasScheme(link);
      || (|segs| == 3 && segs[0] == "c" && IsDigits(segs[1]) && segs[2] == "")
      || (|segs| == 2 && IsUsername(segs[0]) && segs[1] == "")
  }

  /** The two regexes of `download_full_chat`: `c/<d>/<d>` or `<username>/<d>`. */
  predicate IsMessageUrl(url: string)
    ensures IsMessageUrl(url) ==> HasHttpScheme(url)
  {
    match SplitUrl(url)
    case None => false
    case Some((_, segs)) =>
      SplitUrlHasScheme(url);
      || (|segs| == 3 && segs[0] == "c" && IsDigits(segs[1]) && IsDigits(segs[2]))
      || (|segs| == 2 && IsUsername(segs[0]) && IsDigits(segs[1]))
  }

  /** Every message link, topic forms included, passes the single-file check. */
  lemma SingleFileUrlCoversMessages(url: string)
    requires MessageLanguage(url, true)
    ensures IsSingleFileUrl(url)
  {
    MessageLanguageShapes(url, true);
    SplitUrlHasScheme(url);
  }

  /** The base-link check accepts exactly the base links without a topic. */
  lemma BaseLinkLanguage(link: string)
    ensures IsBaseLink(link) <==> BaseLanguage(link, false)
  {
    BaseLanguageShapes(link, false);
  }

  /** The full-chat check accepts exactly the message links without a topic. */
  lemma MessageUrlLanguage(url: string)
    ensures IsMessageUrl(url) <==> MessageLanguage(url, false)
  {
    MessageLanguageShapes(url, false);
  }

  // ---------------------------------------------------------------------------
  // Single file
  // ---------------------------------------------------------------------------

  /** `download_single_file`: the wrapper it writes, or why it stops. */
  function DownloadSingleFile(answer: Option<string>, script: string): (r: SingleFileOutcome)
    ensures r != NotMessageLink
    ensures r == Cancelled <==> !Truthy(answer)
    ensures r.Wrapper? <==> Truthy(answer) && HasHttpScheme(Strip(answer.value))
    ensures r.Wrapper? ==> r.script == SingleFileScript(script, Strip(answer.value))
  {
    if !Truthy(answer) then Cancelled
    else
      var url := Strip(answer.value);
      if !IsSingleFileUrl(url) then NotHttp
      else Wrapper(SingleFileScript(script, url))
  }

  /** A link the scheme check lets through, with a right single quotation mark (U+2019) in it. */
  const SmartQuoteUrl: string := "https://a\U{2019};calc;#"

  /**
   * A typographic quote in an accepted link ends the PowerShell literal of the
   * wrapper's assignment early: for `https://a’;calc;#` the literal is
   * `https://a`, and `;calc;#'` is left over as code.
   */
  lemma SmartQuoteUrlEscapesLiteral(script: string)
    ensures DownloadSingleFile(Some(SmartQuoteUrl), script) == Wrapper(SingleFileScript(script, SmartQuoteUrl))
    ensures ReadLiteral(EscapeQuotes(SmartQuoteUrl) + "'") == Some(("https://a", ";calc;#'"))
  {
    var u := SmartQuoteUrl;
    SmartQuoteUrlAccepted();
    var r := DownloadSingleFile(Some(u), script);
    assert r.Wrapper? && r.script == SingleFileScript(script, u);
    SmartQuoteUrlUnescaped();
    assert EscapeQuotes(u) + "'" == u + "'";
    SmartQuoteLiteral();
  }

  /** PowerShell's reading of the link followed by the closing quote. */
  lemma SmartQuoteLiteral()
    ensures ReadLiteral(SmartQuoteUrl + "'") == Some(("https://a", ";calc;#'"))
  {
    var e := "\U{2019};calc;#'";
    assert SmartQuoteUrl + "'" == "https://a" + e;
    assert e[1..] == ";calc;#'";
    assert ReadLiteral(e) == Some(([], ";calc;#'"));
    assert forall i :: 0 <= i < |"https://a"| ==> !IsPsQuote("https://a"[i]);
    ReadLiteralPlainPrefix("https://a", e);
    assert "https://a" + [] == "https://a";
  }

  /** The link has no surrounding whitespace and starts with `https://`. */
  lemma SmartQuoteUrlAccepted()
    ensures Strip(SmartQuoteUrl) == SmartQuoteUrl && HasHttpScheme(SmartQuoteUrl)
  {
    var u := SmartQuoteUrl;
    assert u[0] == 'h' && u[|u| - 1] == '#';
    StripKeepsStripped(u);
    assert u[..8] == "https://";
  }

  /** The link has no `'`, so the escaping leaves it unchanged. */
  lemma SmartQuoteUrlUnescaped()
    ensures EscapeQuotes(SmartQuoteUrl) == SmartQuoteUrl
  {
    assert forall i :: 0 <= i < |SmartQuoteUrl| ==> SmartQuoteUrl[i] != '\'';
    ReplaceAllAbsentChar(SmartQuoteUrl, '\'', "''");
  }

  // ---------------------------------------------------------------------------
  // Range and full-chat downloads
  // ---------------------------------------------------------------------------

  /** This launcher's string dialog: `apply` stores the stripped entry text. */
  class StringInputDialog {
    /** `None` until the user confirms the dialog. */
    var result: Option<string>

    constructor ()
      ensures result == None
    {
      result := None;
    }

    method Apply(entry: string)
      modifies this
      ensures result == Some(Strip(entry))
    {
      result := Some(Strip(entry));
    }
  }

  /** What the dialog holds after it closes: the stripped entry, or `None` if cancelled. */
  function StringDialogResult(answer: Option<string>): (r: Option<string>)
    ensures r.Some? <==> answer.Some?
    ensures r.Some? ==> Stripped(r.value)
  {
    if answer.None? then None
    else Some(Strip(answer.value))
  }

  method AskString(answer: Option<string>) returns (r: Option<string>)
    ensures r == StringDialogResult(answer)
  {
    var dlg := new StringInputDialog();
    if answer.Some? {
      dlg.Apply(answer.value);
    }
    r := dlg.result;
  }

  /** `dlg.result if dlg.result else default`, applied to the stripped result. */
  function PathOrDefault(result: Option<string>, default: string): (path: string)
    ensures Truthy(result) ==> path == result.value
    ensures !Truthy(result) ==> path == default
  {
    if Truthy(result) then result.value else default
  }

  /** The path a path dialog's answer stands for: the stripped entry, or the launcher directory when blank. */
  lemma PathFromAnswer(answer: Option<string>, default: string)
    ensures answer.None? ==> PathOrDefault(StringDialogResult(answer), default) == default
    ensures answer.Some? && AllSpace(answer.value) ==> PathOrDefault(StringDialogResult(answer), default) == default
    ensures answer.Some? && !AllSpace(answer.value) ==>
      PathOrDefault(StringDialogResult(answer), default) == Strip(answer.value) != []
  {
    if answer.Some? {
      StripEmptyIffAllSpace(answer.value);
    }
  }

  /** `download_range` for a run of dialog answers: the record it saves, or `None`. */
  function RangeSession(launcherDir: string, existing: set<string>, answers: seq<Option<string>>): (r: Option<RangeRecord>)
    ensures r.Some? ==> r.value.Valid() && r.value.tdlPath in existing && r.value.mediaDir in existing
  {
    var tdlPath := PathOrDefault(StringDialogResult(Answer(answers, 0)), launcherDir);
    if tdlPath !in existing then None
    else
      var mediaDir := PathOrDefault(StringDialogResult(Answer(answers, 1)), launcherDir);
      if mediaDir !in existing then None
      else RangeFromAnswers(IsBaseLink, tdlPath, mediaDir, answers)
  }

  method DownloadRange(launcherDir: string, existing: set<string>, answers: seq<Option<string>>)
    returns (r: Option<RangeRecord>)
    ensures r == RangeSession(launcherDir, existing, answers)
  {
    var tdlResult := AskString(Answer(answers, 0));
    var tdlPath := PathOrDefault(tdlResult, launcherDir);
    if tdlPath !in existing {
      return None;
    }
    var mediaResult := AskString(Answer(answers, 1));
    var mediaDir := PathOrDefault(mediaResult, launcherDir);
    if mediaDir !in existing {
      return None;
    }
    r := CollectRange(IsBaseLink, tdlPath, mediaDir, answers);
  }

  /** A saved range record is valid, names existing paths and carries a base link without a topic. */
  lemma RangeSessionSaves(launcherDir: string, existing: set<string>, answers: seq<Option<string>>)
    requires RangeSession(launcherDir, existing, answers).Some?
    ensures var rec := RangeSession(launcherDir, existing, answers).value;
      && rec.Valid()
      && BaseLanguage(rec.telegramUrl, false)
      && rec.tdlPath == PathOrDefault(StringDialogResult(Answer(answers, 0)), launcherDir) && rec.tdlPath in existing
      && rec.mediaDir == PathOrDefault(StringDialogResult(Answer(answers, 1)), launcherDir) && rec.mediaDir in existing
  {
    BaseLinkLanguage(RangeSession(launcherDir, existing, answers).value.telegramUrl);
  }

  /** `download_full_chat` for a run of dialog answers: the record it saves, or `None`. */
  function FullChatSession(launcherDir: string, existing: set<string>, answers: seq<Option<string>>): (r: Option<FullChatRecord>)
    ensures r.Some? ==> r.value.Valid() && r.value.tdlPath in existing && r.value.mediaDir in existing
  {
    var tdlPath := PathOrDefault(StringDialogResult(Answer(answers, 0)), launcherDir);
    if tdlPath !in existing then None
    else
      var mediaDir := PathOrDefault(StringDialogResult(Answer(answers, 1)), launcherDir);
      if mediaDir !in existing then None
      else FullChatFromAnswers(IsMessageUrl, tdlPath, mediaDir, answers)
  }

  method DownloadFullChat(launcherDir: string, existing: set<string>, answers: seq<Option<string>>)
    returns (r: Option<FullChatRecord>)
    ensures r == FullChatSession(launcherDir, existing, answers)
  {
    var tdlResult := AskString(Answer(answers, 0));
    var tdlPath := PathOrDefault(tdlResult, launcherDir);
    if tdlPath !in existing {
      return None;
    }
    var mediaResult := AskString(Answer(answers, 1));
    var mediaDir := PathOrDefault(mediaResult, launcherDir);
    if mediaDir !in existing {
      return None;
    }
    r := CollectFullChat(IsMessageUrl, tdlPath, mediaDir, answers);
  }

  /** A saved full-chat record is valid, names existing paths and carries a message link without a topic. */
  lemma FullChatSessionSaves(launcherDir: string, existing: set<string>, answers: seq<Option<string>>)
    requires FullChatSession(launcherDir, existing, answers).Some?
    ensures var rec := FullChatSession(launcherDir, existing, answers).value;
      && rec.Valid()
      && MessageLanguage(rec.telegramMessageUrl, false)
      && rec.tdlPath == PathOrDefault(StringDialogResult(Answer(answers, 0)), launcherDir) && rec.tdlPath in existing
      && rec.mediaDir == PathOrDefault(StringDialogResult(Answer(answers, 1)), launcherDir) && rec.mediaDir in existing
  {
    MessageUrlLanguage(FullChatSession(launcherDir, existing, answers).value.telegramMessageUrl);
  }

  // ---------------------------------------------------------------------------
  // Choosing the shell
  // ---------------------------------------------------------------------------

  /** `MIN_PS_VERSION`. */
  const MinPsVersion: int := 7

  /**
   * What `ensure_pwsh` finds out about the machine: the major version of
   * `powershell.exe`, the `pwsh` found on the path and its major version,
   * whether `winget` is there, whether the user agrees to install, whether the
   * install succeeds, and the `pwsh` found afterwards with its version. A
   * version that cannot be read is 0.
   */
  datatype ShellProbe = ShellProbe(
    builtinMajor: int,
    pwshPath: Option<string>,
    pwshMajor: int,
    hasWinget: bool,
    userAccepts: bool,
    installSucceeds: bool,
    pwshPathAfter: Option<string>,
    pwshMajorAfter: int)

  /** `pwsh_path and check_ps_version(pwsh_path) >= MIN_PS_VERSION` */
  predicate UsablePwsh(path: Option<string>, major: int) {
    Truthy(path) && major >= MinPsVersion
  }

  /** The winget route ends with a usable `pwsh`. */
  predicate InstallsPwsh(p: ShellProbe) {
    p.hasWinget && p.userAccepts && p.installSucceeds && UsablePwsh(p.pwshPathAfter, p.pwshMajorAfter)
  }

  /**
   * `ensure_pwsh`: the built-in shell when it is recent enough; otherwise a
   * recent `pwsh` found on the path, or one installed through winget; and the
   * built-in shell when none of these works out.
   */
  function EnsurePwsh(p: ShellProbe): (shell: string)
    ensures p.builtinMajor >= MinPsVersion ==> shell == "powershell.exe"
    ensures p.builtinMajor < MinPsVersion && UsablePwsh(p.pwshPath, p.pwshMajor) ==> shell == p.pwshPath.value
    ensures p.builtinMajor < MinPsVersion && !UsablePwsh(p.pwshPath, p.pwshMajor) && InstallsPwsh(p) ==>
      shell == p.pwshPathAfter.value
    ensures p.builtinMajor < MinPsVersion && !UsablePwsh(p.pwshPath, p.pwshMajor) && !InstallsPwsh(p) ==>
      shell == "powershell.exe"
  {
    if p.builtinMajor >= MinPsVersion then "powershell.exe"
    else if UsablePwsh(p.pwshPath, p.pwshMajor) then p.pwshPath.value
    else if p.hasWinget && p.userAccepts && p.installSucceeds && UsablePwsh(p.pwshPathAfter, p.pwshMajorAfter)
    then p.pwshPathAfter.value
    else "powershell.exe"
  }

  /**
   * Whatever the machine, the shell is `powershell.exe` or a `pwsh` whose
   * version was read as at least 7. When some version-7 shell is available
   * without installing, the chosen one is such a shell.
   */
  lemma EnsurePwshSupported(p: ShellProbe)
    ensures var shell := EnsurePwsh(p);
      || shell == "powershell.exe"
      || (UsablePwsh(p.pwshPath, p.pwshMajor) && shell == p.pwshPath.value)
      || (InstallsPwsh(p) && shell == p.pwshPathAfter.value)
    ensures p.builtinMajor >= MinPsVersion || UsablePwsh(p.pwshPath, p.pwshMajor) ==>
      (EnsurePwsh(p) == "powershell.exe" && p.builtinMajor >= MinPsVersion)
      || (EnsurePwsh(p) == p.pwshPath.value && p.pwshMajor >= MinPsVersion)
  {
  }

  // ---------------------------------------------------------------------------
  // Starting PowerShell
  // ---------------------------------------------------------------------------

  /**
   * `run_powershell_script`: nothing starts when the script file is missing;
   * otherwise the chosen shell runs behind an empty window title, always with
   * `-NoExit`, and runs the inline command when there is one, else the script.
   */
  method RunPowerShellScript(scriptPath: string, extraCommand: Option<string>, files: set<string>, probe: ShellProbe)
    returns (r: Launch)
    ensures r.NoLaunch? <==> scriptPath !in files
    ensures r.Launch? ==> |r.args| == 10 && r.args[..4] == ["cmd", "/c", "start", ""] && r.args[4] == EnsurePwsh(probe)
    ensures r.Launch? ==> r.args[5..8] == ["-NoExit", "-ExecutionPolicy", "Bypass"]
    ensures r.Launch? ==> ReadInvocation(r.args) == Some(Invocation(true, EnsurePwsh(probe), true,
      if Truthy(extraCommand) then Command(extraCommand.value) else File(scriptPath)))
  {
    if scriptPath !in files {
      return NoLaunch;
    }
    var shell := EnsurePwsh(probe);
    var cmd := ["cmd", "/c", "start", "", shell, "-NoExit", "-ExecutionPolicy", "Bypass"];
    if Truthy(extraCommand) {
      cmd := cmd + ["-Command", extraCommand.value];
    } else {
      cmd := cmd + ["-File", scriptPath];
    }
    var target := if Truthy(extraCommand) then Command(extraCommand.value) else File(scriptPath);
    assert cmd == ["cmd", "/c", "start"] + [""] + [shell] + ["-NoExit"] + ["-ExecutionPolicy", "Bypass"] + TargetArgs(target);
    ReadInvocationOf(true, shell, true, target);
    r := Launch(cmd);
  }

  /** `login_telegram`: with `tdl.exe` present, runs `& '<tdl.exe>' login` inline. */
  method LoginTelegram(tdlExe: string, files: set<string>, probe: ShellProbe) returns (r: Launch)
    ensures r.NoLaunch? <==> tdlExe !in files
    ensures r.Launch? ==> ReadInvocation(r.args) == Some(Invocation(true, EnsurePwsh(probe), true, Command(LoginCommand(tdlExe))))
  {
    if tdlExe !in files {
      return NoLaunch;
    }
    r := RunPowerShellScript(tdlExe, Some(LoginCommand(tdlExe)), files, probe);
  }
}
