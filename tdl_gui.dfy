/**
 * The launcher `GUI/tdl_gui.py` (Russian and English menus, close-terminal
 * switch). Its link recognisers accept the topic forms. Its path dialogs keep
 * the text as typed and fall back to the launcher directory when the result is
 * `None` or empty. It starts `PowerShell.exe`, with `-NoExit` only while the
 * close-terminal switch is off. Below PowerShell 7 it first reduces the script
 * to ASCII.
 */
module TdlGui {
  import opened Text
  import opened Dialogs
  import opened TmeLinks
  import opened PsLiteral
  import opened Handoff
  import opened Launching

  // ---------------------------------------------------------------------------
  // Link recognisers
  // ---------------------------------------------------------------------------

  /** The regex of `download_single_file`: `c/<d>/<d>` with an optional `/<d>`, or `<username>/<d>`. */
  predicate IsSingleFileUrl(url: string)
    ensures IsSingleFileUrl(url) ==> HasHttpScheme(url)
  {
    match SplitUrl(url)
    case None => false
    case Some((_, segs)) =>
      SplitUrlHasScheme(url);
      || (3 <= |segs| <= 4 && segs[0] == "c" && forall k :: 1 <= k < |segs| ==> IsDigits(segs[k]))
      || (|segs| == 2 && IsUsername(segs[0]) && IsDigits(segs[1]))
  }

  /** The three regexes of `download_range`: `c/<d>/`, `c/<d>/<d>/`, `<username>/`. */
  predicate IsBaseLink(link: string)
    ensures IsBaseLink(link) ==> HasHttpScheme(link)
  {
    match SplitUrl(link)
    case None => false
    case Some((_, segs)) =>
      SplitUrlHasScheme(link);
      || (|segs| == 3 && segs[0] == "c" && IsDigits(segs[1]) && segs[2] == "")
      || (|segs| == 4 && segs[0] == "c" && IsDigits(segs[1]) && IsDigits(segs[2]) && segs[3] == "")
      || (|segs| == 2 && IsUsername(segs[0]) && segs[1] == "")
  }

  /** The three regexes of `download_full_chat`: `c/<d>/<d>`, `c/<d>/<d>/<d>`, `<username>/<d>`. */
  predicate IsMessageUrl(url: string)
    ensures IsMessageUrl(url) ==> HasHttpScheme(url)
  {
    match SplitUrl(url)
    case None => false
    case Some((_, segs)) =>
      SplitUrlHasScheme(url);
      || (|segs| == 3 && segs[0] == "c" && IsDigits(segs[1]) && IsDigits(segs[2]))
      || (|segs| == 4 && segs[0] == "c" && IsDigits(segs[1]) && IsDigits(segs[2]) && IsDigits(segs[3]))
      || (|segs| == 2 && IsUsername(segs[0]) && IsDigits(segs[1]))
  }

  /** The single-file check accepts exactly the message links, topic forms included. */
  lemma SingleFileUrlLanguage(url: string)
    ensures IsSingleFileUrl(url) <==> MessageLanguage(url, true)
  {
    MessageLanguageShapes(url, true);
    if SplitUrl(url).Some? {
      var segs := SplitUrl(url).value.1;
      if 3 <= |segs| <= 4 {
        assert (forall k :: 1 <= k < |segs| ==> IsDigits(segs[k]))
          <==> IsDigits(segs[1]) && IsDigits(segs[2]) && (|segs| == 4 ==> IsDigits(segs[3]));
      }
    }
  }

  /** The base-link check accepts exactly the base links, topic forms included. */
  lemma BaseLinkLanguage(link: string)
    ensures IsBaseLink(link) <==> BaseLanguage(link, true)
  {
    BaseLanguageShapes(link, true);
  }

  /** The full-chat check accepts exactly the message links, topic forms included. */
  lemma MessageUrlLanguage(url: string)
    ensures IsMessageUrl(url) <==> MessageLanguage(url, true)
  {
    MessageLanguageShapes(url, true);
  }

  // ---------------------------------------------------------------------------
  // Single file
  // ---------------------------------------------------------------------------

  /**
   * `download_single_file` for the link dialog's answer and the stock script's
   * text: the wrapper it writes, or why it stops.
   */
  function DownloadSingleFile(answer: Option<string>, script: string): (r: SingleFileOutcome)
    ensures r == Cancelled <==> !Truthy(answer)
    ensures r == NotHttp <==> Truthy(answer) && !HasHttpScheme(Strip(answer.value))
    ensures r.Wrapper? ==> Truthy(answer) && IsSingleFileUrl(Strip(answer.value))
    ensures r.Wrapper? ==> r.script == SingleFileScript(script, Strip(answer.value))
  {
    if !Truthy(answer) then Cancelled
    else
      var url := Strip(answer.value);
      if !HasHttpScheme(url) then NotHttp
      else if !IsSingleFileUrl(url) then NotMessageLink
      else Wrapper(SingleFileScript(script, url))
  }

  /** A wrapper is written exactly when the stripped answer is a message link. */
  lemma DownloadSingleFileWrites(answer: Option<string>, script: string)
    ensures DownloadSingleFile(answer, script).Wrapper? <==>
      Truthy(answer) && MessageLanguage(Strip(answer.value), true)
  {
    if Truthy(answer) {
      var url := Strip(answer.value);
      SingleFileUrlLanguage(url);
      if IsSingleFileUrl(url) {
        SplitUrlHasScheme(url);
      }
    }
  }

  /**
   * Every accepted link survives the quoting: PowerShell reads the literal in
   * the assignment back as exactly the link.
   */
  lemma SingleFileUrlSurvivesQuoting(url: string, rest: string)
    requires IsSingleFileUrl(url)
    requires rest == [] || !IsPsQuote(rest[0])
    ensures ReadLiteral(EscapeQuotes(url) + "'" + rest) == Some((url, rest))
  {
    SingleFileUrlLanguage(url);
    MessageLanguageAscii(url, true);
    AsciiHasOnlyPlainQuotes(url);
    EscapeQuotesRoundTripPlain(url, rest);
  }

  // ---------------------------------------------------------------------------
  // Range and full-chat downloads
  // ---------------------------------------------------------------------------

  /** `dlg.result or default`: the typed text unless the dialog was cancelled or left empty. */
  function PathOrDefault(result: Option<string>, default: string): (path: string)
    ensures Truthy(result) ==> path == result.value
    ensures !Truthy(result) ==> path == default
  {
    if Truthy(result) then result.value else default
  }

  /**
   * `download_range` for a run of dialog answers, with `existing` the paths
   * that exist: the record it saves, or `None` when it stops.
   */
  function RangeSession(launcherDir: string, existing: set<string>, answers: seq<Option<string>>): (r: Option<RangeRecord>)
    ensures r.Some? ==> r.value.Valid() && r.value.tdlPath in existing && r.value.mediaDir in existing
  {
    var tdlPath := PathOrDefault(Answer(answers, 0), launcherDir);
    if tdlPath !in existing then None
    else
      var mediaDir := PathOrDefault(Answer(answers, 1), launcherDir);
      if mediaDir !in existing then None
      else RangeFromAnswers(IsBaseLink, tdlPath, mediaDir, answers)
  }

  method DownloadRange(launcherDir: string, existing: set<string>, answers: seq<Option<string>>)
    returns (r: Option<RangeRecord>)
    ensures r == RangeSession(launcherDir, existing, answers)
  {
    var tdlResult := AskString(Answer(answers, 0));
    var tdlPath := PathOrDefault(tdlResult, launcherDir);
    if tdlPath !in existing {
      return None;
    }
    var mediaResult := AskString(Answer(answers, 1));
    var mediaDir := PathOrDefault(mediaResult, launcherDir);
    if mediaDir !in existing {
      return None;
    }
    r := CollectRange(IsBaseLink, tdlPath, mediaDir, answers);
  }

  /**
   * A saved range record is valid, names existing paths chosen by the path
   * rule, and carries a base link.
   */
  lemma RangeSessionSaves(launcherDir: string, existing: set<string>, answers: seq<Option<string>>)
    requires RangeSession(launcherDir, existing, answers).Some?
    ensures var rec := RangeSession(launcherDir, existing, answers).value;
      && rec.Valid()
      && BaseLanguage(rec.telegramUrl, true)
      && rec.tdlPath == PathOrDefault(Answer(answers, 0), launcherDir) && rec.tdlPath in existing
      && rec.mediaDir == PathOrDefault(Answer(answers, 1), launcherDir) && rec.mediaDir in existing
  {
    BaseLinkLanguage(RangeSession(launcherDir, existing, answers).value.telegramUrl);
  }

  /** `download_full_chat` for a run of dialog answers: the record it saves, or `None`. */
  function FullChatSession(launcherDir: string, existing: set<string>, answers: seq<Option<string>>): (r: Option<FullChatRecord>)
    ensures r.Some? ==> r.value.Valid() && r.value.tdlPath in existing && r.value.mediaDir in existing
  {
    var tdlPath := PathOrDefault(Answer(answers, 0), launcherDir);
    if tdlPath !in existing then None
    else
      var mediaDir := PathOrDefault(Answer(answers, 1), launcherDir);
      if mediaDir !in existing then None
      else FullChatFromAnswers(IsMessageUrl, tdlPath, mediaDir, answers)
  }

  method DownloadFullChat(launcherDir: string, existing: set<string>, answers: seq<Option<string>>)
    returns (r: Option<FullChatRecord>)
    ensures r == FullChatSession(launcherDir, existing, answers)
  {
    var tdlResult := AskString(Answer(answers, 0));
    var tdlPath := PathOrDefault(tdlResult, launcherDir);
    if tdlPath !in existing {
      return None;
    }
    var mediaResult := AskString(Answer(answers, 1));
    var mediaDir := PathOrDefault(mediaResult, launcherDir);
    if mediaDir !in existing {
      return None;
    }
    r := CollectFullChat(IsMessageUrl, tdlPath, mediaDir, answers);
  }

  /** A saved full-chat record is valid, names existing paths and carries a message link. */
  lemma FullChatSessionSaves(launcherDir: string, existing: set<string>, answers: seq<Option<string>>)
    requires FullChatSession(launcherDir, existing, answers).Some?
    ensures var rec := FullChatSession(launcherDir, existing, answers).value;
      && rec.Valid()
      && MessageLanguage(rec.telegramMessageUrl, true)
      && rec.tdlPath == PathOrDefault(Answer(answers, 0), launcherDir) && rec.tdlPath in existing
      && rec.mediaDir == PathOrDefault(Answer(answers, 1), launcherDir) && rec.mediaDir in existing
  {
    MessageUrlLanguage(FullChatSession(launcherDir, existing, answers).value.telegramMessageUrl);
  }

  // ---------------------------------------------------------------------------
  // Starting PowerShell
  // ---------------------------------------------------------------------------

  /** The close-terminal switch of the main window (`CLOSE_TERMINAL`), on at start. */
  class Settings {
    var closeTerminal: bool

    constructor ()
      ensures closeTerminal
    {
      closeTerminal := true;
    }

    /** `toggle_close_terminal`: the switch takes the checkbox's value. */
    method ToggleCloseTerminal(checked: bool)
      modifies this
      ensures closeTerminal == checked
    {
      closeTerminal := checked;
    }

    /**
     * `run_powershell_script` reading the global switch: the window stays
     * open (`-NoExit`) exactly when the switch is off, and the launch reads
     * back as the invocation `RunPowerShellScriptReads` gives.
     */
    method RunScript(scriptPath: Option<string>, extraCommand: Option<string>, files: map<string, string>, psVersion: int)
      returns (launch: Launch, newFiles: map<string, string>)
      requires Truthy(extraCommand) || scriptPath.Some?
      ensures (launch, newFiles) == RunPowerShellScript(closeTerminal, scriptPath, extraCommand, files, psVersion)
      ensures launch.Launch? ==>
        ReadInvocation(launch.args).Some? && ReadInvocation(launch.args).value.noExit == !closeTerminal
    {
      var r := RunPowerShellScript(closeTerminal, scriptPath, extraCommand, files, psVersion);
      if r.0.Launch? {
        RunPowerShellScriptReads(closeTerminal, scriptPath, extraCommand, files, psVersion);
      }
      launch, newFiles := r.0, r.1;
    }
  }

  /** The lowest PowerShell major version that runs the scripts unchanged. */
  const Utf8PsVersion: int := 7

  /**
   * `sanitize_script`: the script file at `path` is rewritten to its ASCII
   * characters; every other file is untouched. A missing file is reported and
   * nothing changes.
   */
  function SanitizeScript(files: map<string, string>, path: string): (r: map<string, string>)
    ensures r.Keys == files.Keys
    ensures path in files ==> r[path] == AsciiOnly(files[path]) && AllAscii(r[path])
    ensures forall p :: p in files && p != path ==> r[p] == files[p]
  {
    if path in files then files[path := AsciiOnly(files[path])] else files
  }

  /** `run_powershell_script` takes the inline-command branch. */
  predicate RunsInline(scriptPath: Option<string>, extraCommand: Option<string>)
    ensures (Truthy(extraCommand) || scriptPath.Some?) && !RunsInline(scriptPath, extraCommand) ==> scriptPath.Some?
  {
    Truthy(extraCommand) && !Truthy(scriptPath)
  }

  /**
   * `run_powershell_script`: the process it starts and the script files after
   * it. `files` maps each existing file to its text and `psVersion` is the
   * installed major version (0 when it cannot be read).
   */
  function RunPowerShellScript(
    closeTerminal: bool, scriptPath: Option<string>, extraCommand: Option<string>,
    files: map<string, string>, psVersion: int): (r: (Launch, map<string, string>))
    requires Truthy(extraCommand) || scriptPath.Some?
    ensures r.0.NoLaunch? <==> !RunsInline(scriptPath, extraCommand) && scriptPath.value !in files
    ensures r.0.Launch? ==> |r.0.args| == (if closeTerminal then 9 else 10)
    ensures r.0.Launch? ==> r.0.args[..5] == ["cmd", "/c", "start", "", "PowerShell.exe"]
    ensures r.0.Launch? ==> (r.0.args[5] == "-NoExit" <==> !closeTerminal)
    ensures r.1 == (if r.0.Launch? && !RunsInline(scriptPath, extraCommand) && psVersion < Utf8PsVersion
                    then SanitizeScript(files, scriptPath.value) else files)
  {
    if RunsInline(scriptPath, extraCommand) then
      if closeTerminal then
        (Launch(["cmd", "/c", "start", "", "PowerShell.exe",
                 "-ExecutionPolicy", "Bypass",
                 "-Command", extraCommand.value + "; exit"]), files)
      else
        (Launch(["cmd", "/c", "start", "", "PowerShell.exe",
                 "-NoExit",
                 "-ExecutionPolicy", "Bypass",
                 "-Command", extraCommand.value]), files)
    else if scriptPath.value !in files then (NoLaunch, files)
    else
      var sanitized := if psVersion < Utf8PsVersion then SanitizeScript(files, scriptPath.value) else files;
      if closeTerminal then
        (Launch(["cmd", "/c", "start", "", "PowerShell.exe",
                 "-ExecutionPolicy", "Bypass",
                 "-File", scriptPath.value]), sanitized)
      else
        (Launch(["cmd", "/c", "start", "", "PowerShell.exe",
                 "-NoExit",
                 "-ExecutionPolicy", "Bypass",
                 "-File", scriptPath.value]), sanitized)
  }

  /**
   * The started process runs `PowerShell.exe` behind an empty window title,
   * keeps its window exactly when the switch is off, and runs the inline
   * command (followed by `; exit` when closing) or the script.
   */
  lemma RunPowerShellScriptReads(
    closeTerminal: bool, scriptPath: Option<string>, extraCommand: Option<string>,
    files: map<string, string>, psVersion: int)
    requires Truthy(extraCommand) || scriptPath.Some?
    requires RunPowerShellScript(closeTerminal, scriptPath, extraCommand, files, psVersion).0.Launch?
    ensures ReadInvocation(RunPowerShellScript(closeTerminal, scriptPath, extraCommand, files, psVersion).0.args)
      == Some(Invocation(true, "PowerShell.exe", !closeTerminal,
           if RunsInline(scriptPath, extraCommand)
           then Command(if closeTerminal then extraCommand.value + "; exit" else extraCommand.value)
           else File(scriptPath.value)))
  {
    var target :=
      if RunsInline(scriptPath, extraCommand)
      then Command(if closeTerminal then extraCommand.value + "; exit" else extraCommand.value)
      else File(scriptPath.value);
    var args := RunPowerShellScript(closeTerminal, scriptPath, extraCommand, files, psVersion).0.args;
    assert args == ["cmd", "/c", "start"] + [""] + ["PowerShell.exe"]
      + (if !closeTerminal then ["-NoExit"] else []) + ["-ExecutionPolicy", "Bypass"] + TargetArgs(target);
    ReadInvocationOf(true, "PowerShell.exe", !closeTerminal, target);
  }

  /**
   * `login_telegram`: with `tdl.exe` present, runs `& '<tdl.exe>' login`
   * inline; otherwise starts nothing.
   */
  function LoginTelegram(closeTerminal: bool, tdlExe: string, files: map<string, string>, psVersion: int): (r: Launch)
    ensures r.NoLaunch? <==> tdlExe !in files
    ensures r.Launch? ==> ReadInvocation(r.args) == Some(Invocation(true, "PowerShell.exe", !closeTerminal,
      Command(if closeTerminal then LoginCommand(tdlExe) + "; exit" else LoginCommand(tdlExe))))
  {
    if tdlExe !in files then NoLaunch
    else
      RunPowerShellScriptReads(closeTerminal, None, Some(LoginCommand(tdlExe)), files, psVersion);
      RunPowerShellScript(closeTerminal, None, Some(LoginCommand(tdlExe)), files, psVersion).0
  }
}
