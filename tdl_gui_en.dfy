/**
 * The English launcher `GUI/EN/tdl_gui.py`. Its link recognisers accept the
 * topic forms, as the main launcher's do. A path dialog's result that is
 * cancelled, empty or whitespace-only falls back to the launcher directory.
 * It always starts `PowerShell.exe` with `-NoExit`, without a window title.
 */
module TdlGuiEn {
  import opened Text
  import opened Dialogs
  import opened TmeLinks
  import opened PsLiteral
  import opened Handoff
  import opened Launching

  // ---------------------------------------------------------------------------
  // Link recognisers
  // ---------------------------------------------------------------------------

  /** The regex of `download_single_file`: `c/<d>/<d>` with an optional `/<d>`, or `<username>/<d>`. */
  predicate IsSingleFileUrl(url: string)
    ensures IsSingleFileUrl(url) ==> HasHttpScheme(url)
  {
    match SplitUrl(url)
    case None => false
    case Some((_, segs)) =>
      SplitUrlHasScheme(url);
      || (3 <= |segs| <= 4 && segs[0] == "c" && forall k :: 1 <= k < |segs| ==> IsDigits(segs[k]))
      || (|segs| == 2 && IsUsername(segs[0]) && IsDigits(segs[1]))
  }

  /** The three regexes of `download_range`: `c/<d>/`, `c/<d>/<d>/`, `<username>/`. */
  predicate IsBaseLink(link: string)
    ensures IsBaseLink(link) ==> HasHttpScheme(link)
  {
    match SplitUrl(link)
    case None => false
    case Some((_, segs)) =>
      SplitUrlHasScheme(link);
      || (|segs| == 3 && segs[0] == "c" && IsDigits(segs[1]) && segs[2] == "")
      || (|segs| == 4 && segs[0] == "c" && IsDigits(segs[1]) && IsDigits(segs[2]) && segs[3] == "")
      || (|segs| == 2 && IsUsername(segs[0]) && segs[1] == "")
  }

  /** The three regexes of `download_full_chat`: `c/<d>/<d>`, `c/<d>/<d>/<d>`, `<username>/<d>`. */
  predicate IsMessageUrl(url: string)
    ensures IsMessageUrl(url) ==> HasHttpScheme(url)
  {
    match SplitUrl(url)
    case None => false
    case Some((_, segs)) =>
      SplitUrlHasScheme(url);
      || (|segs| == 3 && segs[0] == "c" && IsDigits(segs[1]) && IsDigits(segs[2]))
      || (|segs| == 4 && segs[0] == "c" && IsDigits(segs[1]) && IsDigits(segs[2]) && IsDigits(segs[3]))
      || (|segs| == 2 && IsUsername(segs[0]) && IsDigits(segs[1]))
  }

  /** The single-file check accepts exactly the message links, topic forms included. */
  lemma SingleFileUrlLanguage(url: string)
    ensures IsSingleFileUrl(url) <==> MessageLanguage(url, true)
  {
    MessageLanguageShapes(url, true);
    if SplitUrl(url).Some? {
      var segs := SplitUrl(url).value.1;
      if 3 <= |segs| <= 4 {
        assert (forall k :: 1 <= k < |segs| ==> IsDigits(segs[k]))
          <==> IsDigits(segs[1]) && IsDigits(segs[2]) && (|segs| == 4 ==> IsDigits(segs[3]));
      }
    }
  }

  /** The base-link check accepts exactly the base links, topic forms included. */
  lemma BaseLinkLanguage(link: string)
    ensures IsBaseLink(link) <==> BaseLanguage(link, true)
  {
    BaseLanguageShapes(link, true);
  }

  /** The full-chat check accepts exactly the message links, topic forms included. */
  lemma MessageUrlLanguage(url: string)
    ensures IsMessageUrl(url) <==> MessageLanguage(url, true)
  {
    MessageLanguageShapes(url, true);
  }

  // ---------------------------------------------------------------------------
  // Single file
  // ---------------------------------------------------------------------------

  /**
   * `download_single_file` for the link dialog's answer and the stock script's
   * text: the wrapper it writes, or why it stops.
   */
  function DownloadSingleFile(answer: Option<string>, script: string): (r: SingleFileOutcome)
    ensures r == Cancelled <==> !Truthy(answer)
    ensures r == NotHttp <==> Truthy(answer) && !HasHttpScheme(Strip(answer.value))
    ensures r.Wrapper? ==> Truthy(answer) && IsSingleFileUrl(Strip(answer.value))
    ensures r.Wrapper? ==> r.script == SingleFileScript(script, Strip(answer.value))
  {
    if !Truthy(answer) then Cancelled
    else
      var url := Strip(answer.value);
      if !HasHttpScheme(url) then NotHttp
      else if !IsSingleFileUrl(url) then NotMessageLink
      else Wrapper(SingleFileScript(script, url))
  }

  /** A wrapper is written exactly when the stripped answer is a message link. */
  lemma DownloadSingleFileWrites(answer: Option<string>, script: string)
    ensures DownloadSingleFile(answer, script).Wrapper? <==>
      Truthy(answer) && MessageLanguage(Strip(answer.value), true)
  {
    if Truthy(answer) {
      var url := Strip(answer.value);
      SingleFileUrlLanguage(url);
      if IsSingleFileUrl(url) {
        SplitUrlHasScheme(url);
      }
    }
  }

  /**
   * Every accepted link survives the quoting: PowerShell reads the literal in
   * the assignment back as exactly the link.
   */
  lemma SingleFileUrlSurvivesQuoting(url: string, rest: string)
    requires IsSingleFileUrl(url)
    requires rest == [] || !IsPsQuote(rest[0])
    ensures ReadLiteral(EscapeQuotes(url) + "'" + rest) == Some((url, rest))
  {
    SingleFileUrlLanguage(url);
    MessageLanguageAscii(url, true);
    AsciiHasOnlyPlainQuotes(url);
    EscapeQuotesRoundTripPlain(url, rest);
  }

  // ---------------------------------------------------------------------------
  // Range and full-chat downloads
  // ---------------------------------------------------------------------------

  /**
   * `dlg.result if dlg.result and dlg.result.strip() != "" else default`: the
   * typed text, kept as typed, unless the dialog was cancelled or the text is blank.
   */
  function PathOrDefault(result: Option<string>, default: string): (path: string)
    ensures Truthy(result) && Strip(result.value) != [] ==> path == result.value
    ensures !(Truthy(result) && Strip(result.value) != []) ==> path == default
  {
    if Truthy(result) && Strip(result.value) != [] then result.value else default
  }

  /** A cancelled, empty or whitespace-only path dialog gives the launcher directory; any other text is kept. */
  lemma PathOrDefaultBlank(result: Option<string>, default: string)
    ensures result.None? || AllSpace(result.value) ==> PathOrDefault(result, default) == default
    ensures result.Some? && !AllSpace(result.value) ==> PathOrDefault(result, default) == result.value
  {
    if result.Some? {
      StripEmptyIffAllSpace(result.value);
      if result.value == [] {
        assert AllSpace(result.value);
      }
    }
  }

  /**
   * `download_range` for a run of dialog answers, with `existing` the paths
   * that exist: the record it saves, or `None` when it stops.
   */
  function RangeSession(launcherDir: string, existing: set<string>, answers: seq<Option<string>>): (r: Option<RangeRecord>)
    ensures r.Some? ==> r.value.Valid() && r.value.tdlPath in existing && r.value.mediaDir in existing
  {
    var tdlPath := PathOrDefault(Answer(answers, 0), launcherDir);
    if tdlPath !in existing then None
    else
      var mediaDir := PathOrDefault(Answer(answers, 1), launcherDir);
      if mediaDir !in existing then None
      else RangeFromAnswers(IsBaseLink, tdlPath, mediaDir, answers)
  }

  method DownloadRange(launcherDir: string, existing: set<string>, answers: seq<Option<string>>)
    returns (r: Option<RangeRecord>)
    ensures r == RangeSession(launcherDir, existing, answers)
  {
    var tdlResult := AskString(Answer(answers, 0));
    var tdlPath := PathOrDefault(tdlResult, launcherDir);
    if tdlPath !in existing {
      return None;
    }
    var mediaResult := AskString(Answer(answers, 1));
    var mediaDir := PathOrDefault(mediaResult, launcherDir);
    if mediaDir !in existing {
      return None;
    }
    r := CollectRange(IsBaseLink, tdlPath, mediaDir, answers);
  }

  /**
   * A saved range record is valid, names existing paths chosen by the path
   * rule, and carries a base link.
   */
  lemma RangeSessionSaves(launcherDir: string, existing: set<string>, answers: seq<Option<string>>)
    requires RangeSession(launcherDir, existing, answers).Some?
    ensures var rec := RangeSession(launcherDir, existing, answers).value;
      && rec.Valid()
      && BaseLanguage(rec.telegramUrl, true)
      && rec.tdlPath == PathOrDefault(Answer(answers, 0), launcherDir) && rec.tdlPath in existing
      && rec.mediaDir == PathOrDefault(Answer(answers, 1), launcherDir) && rec.mediaDir in existing
  {
    BaseLinkLanguage(RangeSession(launcherDir, existing, answers).value.telegramUrl);
  }

  /** `download_full_chat` for a run of dialog answers: the record it saves, or `None`. */
  function FullChatSession(launcherDir: string, existing: set<string>, answers: seq<Option<string>>): (r: Option<FullChatRecord>)
    ensures r.Some? ==> r.value.Valid() && r.value.tdlPath in existing && r.value.mediaDir in existing
  {
    var tdlPath := PathOrDefault(Answer(answers, 0), launcherDir);
    if tdlPath !in existing then None
    else
      var mediaDir := PathOrDefault(Answer(answers, 1), launcherDir);
      if mediaDir !in existing then None
      else FullChatFromAnswers(IsMessageUrl, tdlPath, mediaDir, answers)
  }

  method DownloadFullChat(launcherDir: string, existing: set<string>, answers: seq<Option<string>>)
    returns (r: Option<FullChatRecord>)
    ensures r == FullChatSession(launcherDir, existing, answers)
  {
    var tdlResult := AskString(Answer(answers, 0));
    var tdlPath := PathOrDefault(tdlResult, launcherDir);
    if tdlPath !in existing {
      return None;
    }
    var mediaResult := AskString(Answer(answers, 1));
    var mediaDir := PathOrDefault(mediaResult, launcherDir);
    if mediaDir !in existing {
      return None;
    }
    r := CollectFullChat(IsMessageUrl, tdlPath, mediaDir, answers);
  }

  /** A saved full-chat record is valid, names existing paths and carries a message link. */
  lemma FullChatSessionSaves(launcherDir: string, existing: set<string>, answers: seq<Option<string>>)
    requires FullChatSession(launcherDir, existing, answers).Some?
    ensures var rec := FullChatSession(launcherDir, existing, answers).value;
      && rec.Valid()
      && MessageLanguage(rec.telegramMessageUrl, true)
      && rec.tdlPath == PathOrDefault(Answer(answers, 0), launcherDir) && rec.tdlPath in existing
      && rec.mediaDir == PathOrDefault(Answer(answers, 1), launcherDir) && rec.mediaDir in existing
  {
    MessageUrlLanguage(FullChatSession(launcherDir, existing, answers).value.telegramMessageUrl);
  }

  // ---------------------------------------------------------------------------
  // Starting PowerShell
  // ---------------------------------------------------------------------------

  /**
   * `run_powershell_script`: nothing starts when the script file is missing;
   * otherwise `PowerShell.exe` runs with `-NoExit` and no window title, and
   * runs the inline command when there is one, else the script.
   */
  method RunPowerShellScript(scriptPath: string, extraCommand: Option<string>, files: set<string>)
    returns (r: Launch)
    ensures r.NoLaunch? <==> scriptPath !in files
    ensures r.Launch? ==> |r.args| == 9
    ensures r.Launch? ==> r.args[..7] == ["cmd", "/c", "start", "PowerShell.exe", "-NoExit", "-ExecutionPolicy", "Bypass"]
    ensures r.Launch? ==> ReadInvocation(r.args) == Some(Invocation(false, "PowerShell.exe", true,
      if Truthy(extraCommand) then Command(extraCommand.value) else File(scriptPath)))
  {
    if scriptPath !in files {
      return NoLaunch;
    }
    var cmd := ["cmd", "/c", "start", "PowerShell.exe", "-NoExit", "-ExecutionPolicy", "Bypass"];
    if Truthy(extraCommand) {
      cmd := cmd + ["-Command", extraCommand.value];
    } else {
      cmd := cmd + ["-File", scriptPath];
    }
    var target := if Truthy(extraCommand) then Command(extraCommand.value) else File(scriptPath);
    assert cmd == ["cmd", "/c", "start"] + [] + ["PowerShell.exe"] + ["-NoExit"] + ["-ExecutionPolicy", "Bypass"] + TargetArgs(target);
    ReadInvocationOf(false, "PowerShell.exe", true, target);
    r := Launch(cmd);
  }

  /**
   * `login_telegram`, which builds its own argument list: with `tdl.exe`
   * present, `PowerShell.exe` runs `& '<tdl.exe>' login` and stays open.
   */
  function LoginTelegram(tdlExe: string, files: set<string>): (r: Launch)
    ensures r.NoLaunch? <==> tdlExe !in files
    ensures r.Launch? ==> ReadInvocation(r.args) == Some(Invocation(false, "PowerShell.exe", true, Command(LoginCommand(tdlExe))))
  {
    if tdlExe !in files then NoLaunch
    else
      ReadInvocationOf(false, "PowerShell.exe", true, Command(LoginCommand(tdlExe)));
      Launch(["cmd", "/c", "start", "PowerShell.exe",
              "-NoExit",
              "-ExecutionPolicy", "Bypass",
              "-Command", LoginCommand(tdlExe)])
  }
}
