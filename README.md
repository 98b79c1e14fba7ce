# TDL Easy Launcher, modelled in Dafny

TDL Easy Launcher is a small desktop program. It asks for a few parameters in
dialogs: a Telegram message or chat link, two paths, a range of message ids,
and download limits. It then starts PowerShell with a stock script that drives
the `tdl` downloader. The repository holds three near-identical launchers:

- `GUI/tdl_gui.py` is the main launcher. It has topic links and a close-terminal switch.
- `GUI/tdl_gui_test.py` is a test launcher. It has looser link checks, stripped path dialogs and a choice of PowerShell version.
- `GUI/EN/tdl_gui.py` is the English launcher. It falls back to the launcher directory for blank paths.

This project models the logic inside the dialogs and launches:

- which links each launcher accepts;
- how a base link is normalised;
- how a single-file link is quoted into the wrapper script;
- the ASCII filter applied to scripts for old PowerShell versions;
- the bounded integer dialog;
- the records saved for range and full-chat downloads;
- the argument lists handed to `cmd /c start`.

Modules:

- `Text`: Python's `str.strip` (the full `isspace` set), truthiness, the ASCII filter, and `str.replace` as a split and join.
- `PyInt`: Python's `int()` on text (its own narrower set of surrounding whitespace, sign, `_` between digits, at most 4300 digits), and the round trip from numbers.
- `Dialogs`: `IntegerInputDialog` and `StringInputDialog` as classes whose `Apply` sets `result`, and the bounded-integer rule.
- `TmeLinks`: the `t.me` link grammar. Links are a datatype, rendered to text. Every recogniser is proved equal to "is the rendering of a valid link", except the test launcher's single-file check, which looks only at the scheme and accepts more. Base-link normalisation lives here too.
- `PsLiteral`: quote escaping, the substitution of the `Read-Host` prompt, and how PowerShell reads a single-quoted literal back.
- `Launching`: the `cmd /c start … PowerShell` argument list, and a reader that recovers the settings it carries.
- `Handoff`: the saved records, the link re-prompt loop, and the integer dialogs of the range and full-chat downloads.
- `TdlGui`, `TdlGuiTest`, `TdlGuiEn`: one module per launcher, each with its own recognisers, path rule, downloads and launch.
- `Variants`: how the three launchers differ.

A dialog is modelled by its answer: `None` for cancel, `Some(text)` for OK.
A download reads its answers in order from a sequence; an answer past the end
counts as a cancel. The file system is a set of existing paths, or a map from
path to text where a file's content matters.

Python's `re` is modelled for the inputs that reach it. The code strips the
text before matching, or the text ends in `/`, so `$` means end of text. `\d`
is read as the ASCII digits.

## Model

| member | source | states |
|---|---|---|
| Text.Strip | GUI/tdl_gui.py:307 | the result is the slice of the input between its leading and its trailing whitespace: everything before and after it is whitespace from Python's `isspace` set, and neither of its ends is |
| Text.StripIdempotent | GUI/tdl_gui.py:307 | stripping twice is stripping once |
| Text.StripEmptyIffAllSpace | GUI/EN/tdl_gui.py:213 | `s.strip()` is empty exactly when every character of `s` is whitespace |
| Text.ReplaceAll | GUI/tdl_gui.py:324-325 | `str.replace` leaves a text without the pattern unchanged |
| Text.AsciiOnly | GUI/tdl_gui.py:108 | the filtered text holds only code points below 128 |
| Text.AsciiOnlyAppend | GUI/tdl_gui.py:108 | the filter works character by character, keeping order: filtering a concatenation concatenates the filtered parts |
| Text.AsciiOnlyKeepsAscii | GUI/tdl_gui.py:108 | an all-ASCII text is left as it is |
| Text.AsciiOnlyIdempotent | GUI/tdl_gui.py:108 | filtering twice is filtering once |
| Text.AsciiOnlyCounts | GUI/tdl_gui.py:108 | every ASCII character keeps its number of occurrences and every other character is dropped |
| PyInt.ParseInt | GUI/tdl_gui.py:243 | every value `int()` accepts has at most 4300 digits, so `str` can print it |
| PyInt.IntStrip | GUI/tdl_gui.py:243 | the text `int()` reads is the slice between its leading and trailing whitespace, in the narrower set `int()` skips |
| PyInt.ParseNumeral | GUI/tdl_gui.py:243 | the sign-and-digits part of `int()`: every value it accepts has at most 4300 digits, so `str` can print it |
| PyInt.ParseNumeralRefusesEnd | GUI/tdl_gui.py:243 | text starting with neither sign nor digit, or not ending in a digit, is refused |
| PyInt.ParseIntRefusesSeparator | GUI/tdl_gui.py:243 | a numeral with U+001C before it or U+001F after it is refused, though `str.strip()` would remove them |
| PyInt.ParseIntRefusesLong | GUI/tdl_gui.py:243 | a numeral of more than 4300 digits is refused |
| PyInt.ParseIntToString | GUI/tdl_gui.py:243 | `int(str(v)) == v` for every integer `v` that `str` can print (at most 4300 digits) |
| PyInt.ParseIntNormalForm | GUI/tdl_gui.py:243 | whatever `int()` accepts prints to text that parses back to the same value |
| PyInt.StrDefinedSmall | GUI/tdl_gui.py:243 | every integer of at most four digits (-9999 to 9999) can be printed |
| PyInt.StrDefinedDigits | GUI/tdl_gui.py:243 | `str(v)` is defined exactly when the decimal text of `v` has at most 4300 digits, that is when `v` lies strictly between `-10^4300` and `10^4300` |
| PyInt.ParsedTextHasDigit | GUI/tdl_gui.py:243 | text that `int()` accepts contains a digit |
| Dialogs.BoundedInt | GUI/tdl_gui.py:241-250 | a result is the parsed value and lies within the given bounds; `None` exactly when the text does not parse or the value is out of bounds |
| Dialogs.BoundedIntAcceptsNumeral | GUI/tdl_gui.py:241-250 | every printable in-bounds number typed as a numeral is accepted as itself |
| Dialogs.IntegerDialogResult | GUI/tdl_gui.py:217-250 | a cancelled dialog gives `None`; a result is in bounds; an in-bounds numeral is returned |
| Dialogs.IntegerInputDialog.constructor | GUI/tdl_gui.py:218-224 | the dialog keeps its bounds and starts with no result |
| Dialogs.IntegerInputDialog.Apply | GUI/tdl_gui.py:241-250 | `result` becomes the bounded parse of the entry, so it is `None` or within the bounds |
| Dialogs.AskInteger | GUI/tdl_gui.py:368-371 | the dialog's result for an answer is `IntegerDialogResult` |
| Dialogs.StringInputDialog.constructor | GUI/tdl_gui.py:198-203 | the dialog starts with no result |
| Dialogs.StringInputDialog.Apply | GUI/tdl_gui.py:214-215 | `result` becomes the entry as typed |
| Dialogs.AskString | GUI/tdl_gui.py:336-337 | the main and English dialogs return the answer unchanged, `None` when cancelled |
| TmeLinks.SplitUrlHasScheme | GUI/tdl_gui.py:308-311 | a text that parses as a `t.me` link starts with `http://` or `https://`, so the link check implies the scheme check |
| TmeLinks.SplitUrlRenders | GUI/tdl_gui.py:311 | the pieces a `t.me` text splits into contain no `/`, and rendering them gives back the text |
| TmeLinks.SplitUrlOfRender | GUI/tdl_gui.py:311 | rendering slash-free pieces and splitting the text gives back the scheme and the pieces |
| TmeLinks.MessageLanguageShapes | GUI/tdl_gui.py:311 | a text is the rendering of a valid message link exactly when it splits into `http(s)://t.me/` and segments of a message shape |
| TmeLinks.BaseLanguageShapes | GUI/tdl_gui.py:360-362 | a text is the rendering of a valid base link exactly when it splits into `http(s)://t.me/` and segments of a base shape |
| TmeLinks.MessageOfShape | GUI/tdl_gui.py:311 | every segment list of a message shape is the segment list of a valid message link |
| TmeLinks.BaseOfShape | GUI/tdl_gui.py:360-362 | every segment list of a base shape is the segment list of a valid base link |
| TmeLinks.MessageLinkSplits | GUI/tdl_gui.py:311 | a valid message link's text splits back into its own segments, and they have a message shape |
| TmeLinks.BaseLinkSplits | GUI/tdl_gui.py:360-362 | a valid base link's text splits back into its own segments, and they have a base shape |
| TmeLinks.MessageLanguageAscii | GUI/tdl_gui.py:311 | every message link is ASCII |
| TmeLinks.RenderMessageAscii | GUI/tdl_gui.py:311 | the text of any valid message link is ASCII |
| TmeLinks.NormaliseBase | GUI/tdl_gui.py:357-359 | the normalised link ends in `/`, is the stripped text with at most one `/` added, and is the stripped text itself exactly when that already ends in `/` |
| TmeLinks.NormaliseBaseIdempotent | GUI/tdl_gui.py:357-359 | normalising twice is normalising once |
| TmeLinks.NormaliseBaseKeeps | GUI/tdl_gui.py:357-359 | an entry whose stripped text ends in `/` is saved as that stripped text, with no `/` added |
| PsLiteral.EscapeQuotesUnfold | GUI/tdl_gui.py:323 | escaping maps `'` to `''` and keeps every other character, in order |
| PsLiteral.EscapeQuotesLength | GUI/tdl_gui.py:323 | the escaped length is the original length plus the number of `'` |
| PsLiteral.EscapeQuotesInjective | GUI/tdl_gui.py:323 | different links escape to different texts |
| PsLiteral.EscapeQuotes | GUI/tdl_gui.py:323 | a link without `'` is kept as it is |
| PsLiteral.SingleFileScript | GUI/tdl_gui.py:324-325 | the wrapper is the script's pieces between prompt lines joined by the assignment; a script without a prompt line is kept as it is |
| PsLiteral.SingleFileScriptReplacesEveryPrompt | GUI/tdl_gui.py:324-325 | the script is cut at every `$telegramUrl = Read-Host`, the pieces hold no prompt, and the wrapper joins them with the assignment |
| PsLiteral.EscapeQuotesMatchesOnPlainQuotes | GUI/tdl_gui.py:323 | on text with no typographic quotes, `replace("'", "''")` doubles every PowerShell quote character |
| PsLiteral.EscapeQuotesRoundTripPlain | GUI/tdl_gui.py:323-325 | for text with no typographic quotes, PowerShell reads the escaped literal back as the text |
| PsLiteral.EscapeAllQuotesRoundTrip | GUI/tdl_gui_test.py:279-281 | doubling every PowerShell quote character makes the literal read back as the text, for every text |
| PsLiteral.CorrectedAssignmentReadsBack | GUI/tdl_gui_test.py:279-281 | the corrected assignment's literal reads back as the link, whatever the link |
| PsLiteral.LoginCommandApostrophe | GUI/tdl_gui.py:296 | for `C:\O'Brien\tdl.exe` the login command's literal is `C:\O` and `Brien\tdl.exe' login` is left outside it |
| PsLiteral.EscapedLoginCommandReadsBack | GUI/tdl_gui.py:296 | with its quotes doubled, every path reads back whole from the login command, followed by ` login` |
| Launching.ReadInvocationOf | GUI/tdl_gui.py:121-159 | an argument list of the launchers' form reads back as its title flag, shell, `-NoExit` exactly when present, and target |
| Handoff.LinkPrompt | GUI/tdl_gui.py:349-365 | the accepted link is the prepared form of an answer that passes the check; every earlier answer was given and refused; a stop means a cancelled or empty answer came after only refused ones |
| Handoff.PromptLink | GUI/tdl_gui.py:349-365 | the re-prompt loop returns what `LinkPrompt` specifies |
| Handoff.RangeNumbers | GUI/tdl_gui.py:367-402 | the ids and limits of a range satisfy `1 <= startId <= endId`, limit 1..10, threads 1..8, and the default `startId + 99` that the endId prompt prints can be printed |
| Handoff.RangeNumbersRefusesUnprintableDefault | GUI/tdl_gui.py:375-376 | a startId whose `startId + 99` has more than 4300 digits ends the download: formatting the endId prompt raises `ValueError` |
| Handoff.ChatNumbers | GUI/tdl_gui.py:455-472 | the limits of a full-chat download are within 1..10 and 1..8 |
| Handoff.AskRangeNumbers | GUI/tdl_gui.py:367-402 | the integer dialogs of a range download return what `RangeNumbers` specifies |
| Handoff.AskChatNumbers | GUI/tdl_gui.py:455-472 | the integer dialogs of a full-chat download return what `ChatNumbers` specifies |
| Handoff.RangeFromAnswers | GUI/tdl_gui.py:349-413 | a saved range record is valid (ids, limits, `maxRetries == 1`), carries an accepted link and keeps both paths |
| Handoff.FullChatFromAnswers | GUI/tdl_gui.py:439-481 | a saved full-chat record is valid, carries an accepted link and keeps both paths |
| Handoff.CollectRange | GUI/tdl_gui.py:349-413 | the range dialogs return what `RangeFromAnswers` specifies |
| Handoff.CollectFullChat | GUI/tdl_gui.py:439-481 | the full-chat dialogs return what `FullChatFromAnswers` specifies |
| Handoff.RangeNumbersAccepts | GUI/tdl_gui.py:367-402 | any in-range ids and limits typed as numerals are taken as typed, when the ids and `startId + 99` have at most 4300 digits |
| Handoff.ChatNumbersAccepts | GUI/tdl_gui.py:455-472 | any in-range limits typed as numerals are taken as typed |
| Handoff.RangeFromAnswersAccepts | GUI/tdl_gui.py:349-413 | an acceptable link followed by in-range, printable numbers (with `startId + 99` printable too) always yields exactly that record |
| Handoff.FullChatFromAnswersAccepts | GUI/tdl_gui.py:439-481 | an acceptable message link followed by in-range limits always yields exactly that record |
| Handoff.LinkPromptFirst | GUI/tdl_gui.py:349-365 | a first answer that is given and accepted ends the prompt loop with its prepared form |
| TdlGui.SingleFileUrlLanguage | GUI/tdl_gui.py:311 | the single-file check accepts exactly the renderings of valid message links with topics: `c/<d>/<d>`, `c/<d>/<d>/<d>` or `<username>/<d>` |
| TdlGui.BaseLinkLanguage | GUI/tdl_gui.py:360-362 | the base check accepts exactly `c/<d>/`, `c/<d>/<d>/` and `<username>/` |
| TdlGui.MessageUrlLanguage | GUI/tdl_gui.py:448-450 | the full-chat check accepts exactly `c/<d>/<d>`, `c/<d>/<d>/<d>` and `<username>/<d>` |
| TdlGui.IsSingleFileUrl | GUI/tdl_gui.py:311 | a text that passes the single-file regex starts with `http://` or `https://` |
| TdlGui.IsBaseLink | GUI/tdl_gui.py:360-362 | a text that passes a base regex starts with `http://` or `https://` |
| TdlGui.IsMessageUrl | GUI/tdl_gui.py:448-450 | a text that passes a full-chat regex starts with `http://` or `https://` |
| TdlGui.DownloadSingleFile | GUI/tdl_gui.py:299-331 | cancel or empty input stops; a stripped link without a scheme stops; a wrapper is written only for an accepted link, with every prompt replaced by its assignment |
| TdlGui.DownloadSingleFileWrites | GUI/tdl_gui.py:305-313 | a wrapper is written exactly when the stripped answer is a valid message link |
| TdlGui.SingleFileUrlSurvivesQuoting | GUI/tdl_gui.py:311-325 | every accepted link reads back from the wrapper's literal unchanged |
| TdlGui.PathOrDefault | GUI/tdl_gui.py:337 | `dlg.result or default`: a non-empty result is kept as typed, otherwise the launcher directory |
| TdlGui.DownloadRange | GUI/tdl_gui.py:333-421 | the range download returns the record `RangeSession` specifies |
| TdlGui.RangeSession | GUI/tdl_gui.py:333-413 | a saved range record is valid and names two existing paths |
| TdlGui.RangeSessionSaves | GUI/tdl_gui.py:333-413 | a saved range record is valid, carries a base link and names existing paths chosen by the path rule |
| TdlGui.DownloadFullChat | GUI/tdl_gui.py:423-489 | the full-chat download returns the record `FullChatSession` specifies |
| TdlGui.FullChatSession | GUI/tdl_gui.py:423-481 | a saved full-chat record is valid and names two existing paths |
| TdlGui.FullChatSessionSaves | GUI/tdl_gui.py:423-481 | a saved full-chat record is valid, carries a message link and names existing paths |
| TdlGui.Settings.constructor | GUI/tdl_gui.py:22 | the close-terminal switch starts on |
| TdlGui.Settings.ToggleCloseTerminal | GUI/tdl_gui.py:495-500 | the switch takes the checkbox's value |
| TdlGui.Settings.RunScript | GUI/tdl_gui.py:115-163 | the launch reads the switch: it is `RunPowerShellScript` of the current switch, and the list carries `-NoExit` exactly when the switch is off |
| TdlGui.SanitizeScript | GUI/tdl_gui.py:99-113 | the script becomes its ASCII filter and is all ASCII; no other file changes; a missing file changes nothing |
| TdlGui.RunsInline | GUI/tdl_gui.py:121 | when the inline branch is not taken, a caller that passed a path or a command has passed a script path |
| TdlGui.RunPowerShellScript | GUI/tdl_gui.py:115-163 | no launch exactly when the script branch finds no file; the list starts `cmd /c start "" PowerShell.exe`; `-NoExit` is there exactly when the switch is off; the script is sanitized only on a launch with PowerShell below 7 |
| TdlGui.RunPowerShellScriptReads | GUI/tdl_gui.py:121-159 | the list runs the inline command, with `; exit` exactly when closing, or the script via `-File` |
| TdlGui.LoginTelegram | GUI/tdl_gui.py:283-297 | no launch without `tdl.exe`; otherwise `& '<tdl.exe>' login` runs inline, with `; exit` exactly when closing |
| TdlGuiTest.SingleFileUrlCoversMessages | GUI/tdl_gui_test.py:266-269 | every message link, topics included, passes the test launcher's single-file check |
| TdlGuiTest.BaseLinkLanguage | GUI/tdl_gui_test.py:355-359 | the base check accepts exactly `c/<d>/` and `<username>/`, with no topic form |
| TdlGuiTest.MessageUrlLanguage | GUI/tdl_gui_test.py:467-469 | the full-chat check accepts exactly `c/<d>/<d>` and `<username>/<d>` |
| TdlGuiTest.IsSingleFileUrl | GUI/tdl_gui_test.py:267 | every text with a `t.me` prefix passes the scheme-only check |
| TdlGuiTest.IsBaseLink | GUI/tdl_gui_test.py:358 | a text that passes a base regex starts with `http://` or `https://` |
| TdlGuiTest.IsMessageUrl | GUI/tdl_gui_test.py:468 | a text that passes a full-chat regex starts with `http://` or `https://` |
| TdlGuiTest.DownloadSingleFile | GUI/tdl_gui_test.py:261-287 | a wrapper is written exactly when the stripped answer starts with `http://` or `https://`; nothing after the scheme is checked |
| TdlGuiTest.SmartQuoteUrlEscapesLiteral | GUI/tdl_gui_test.py:266-281 | the link `https://a’;calc;#` is accepted, and its literal in the wrapper ends at `’`, leaving `;calc;#'` as code |
| TdlGuiTest.SmartQuoteLiteral | GUI/tdl_gui_test.py:279-281 | PowerShell reads `https://a` as the literal and leaves `;calc;#'` |
| TdlGuiTest.SmartQuoteUrlAccepted | GUI/tdl_gui_test.py:266-269 | the link survives stripping and has the `https://` scheme |
| TdlGuiTest.SmartQuoteUrlUnescaped | GUI/tdl_gui_test.py:279 | the escaping leaves the link unchanged |
| TdlGuiTest.StringInputDialog.constructor | GUI/tdl_gui_test.py:185-190 | the dialog starts with no result |
| TdlGuiTest.StringInputDialog.Apply | GUI/tdl_gui_test.py:199-200 | `result` becomes the stripped entry |
| TdlGuiTest.StringDialogResult | GUI/tdl_gui_test.py:184-200 | a result exists exactly when the dialog was confirmed, and it is stripped |
| TdlGuiTest.AskString | GUI/tdl_gui_test.py:333-334 | the dialog returns what `StringDialogResult` specifies |
| TdlGuiTest.PathOrDefault | GUI/tdl_gui_test.py:334 | a non-empty result is kept, otherwise the launcher directory |
| TdlGuiTest.PathFromAnswer | GUI/tdl_gui_test.py:333-341 | a cancelled or whitespace-only answer gives the launcher directory; any other gives the stripped, non-empty text |
| TdlGuiTest.DownloadRange | GUI/tdl_gui_test.py:328-435 | the range download returns the record `RangeSession` specifies |
| TdlGuiTest.RangeSession | GUI/tdl_gui_test.py:328-427 | a saved range record is valid and names two existing paths |
| TdlGuiTest.RangeSessionSaves | GUI/tdl_gui_test.py:328-427 | a saved range record is valid, carries a base link without topic and names existing paths |
| TdlGuiTest.DownloadFullChat | GUI/tdl_gui_test.py:440-518 | the full-chat download returns the record `FullChatSession` specifies |
| TdlGuiTest.FullChatSession | GUI/tdl_gui_test.py:440-510 | a saved full-chat record is valid and names two existing paths |
| TdlGuiTest.FullChatSessionSaves | GUI/tdl_gui_test.py:440-510 | a saved full-chat record is valid, carries a message link without topic and names existing paths |
| TdlGuiTest.EnsurePwsh | GUI/tdl_gui_test.py:97-119 | `powershell.exe` when it is version 7 or later; else a version-7 `pwsh` on the path; else one installed through winget; else `powershell.exe` |
| TdlGuiTest.EnsurePwshSupported | GUI/tdl_gui_test.py:97-119 | the shell is `powershell.exe` or a `pwsh` read as version 7 or later; when a version-7 shell exists without installing, it is the one chosen |
| TdlGuiTest.RunPowerShellScript | GUI/tdl_gui_test.py:144-165 | no launch exactly when the script is missing; the list has the empty title, the chosen shell and `-NoExit -ExecutionPolicy Bypass`, then `-Command` when there is a command and `-File` otherwise |
| TdlGuiTest.LoginTelegram | GUI/tdl_gui_test.py:247-256 | no launch without `tdl.exe`; otherwise the chosen shell runs `& '<tdl.exe>' login` and stays open |
| TdlGuiEn.SingleFileUrlLanguage | GUI/EN/tdl_gui.py:152 | the single-file check accepts exactly the valid message links with topics |
| TdlGuiEn.BaseLinkLanguage | GUI/EN/tdl_gui.py:233-235 | the base check accepts exactly `c/<d>/`, `c/<d>/<d>/` and `<username>/` |
| TdlGuiEn.MessageUrlLanguage | GUI/EN/tdl_gui.py:311 | the full-chat check accepts exactly `c/<d>/<d>`, `c/<d>/<d>/<d>` and `<username>/<d>` |
| TdlGuiEn.IsSingleFileUrl | GUI/EN/tdl_gui.py:152 | a text that passes the single-file regex starts with `http://` or `https://` |
| TdlGuiEn.IsBaseLink | GUI/EN/tdl_gui.py:233-235 | a text that passes a base regex starts with `http://` or `https://` |
| TdlGuiEn.IsMessageUrl | GUI/EN/tdl_gui.py:311 | a text that passes a full-chat regex starts with `http://` or `https://` |
| TdlGuiEn.DownloadSingleFile | GUI/EN/tdl_gui.py:143-176 | cancel or empty input stops; a link without a scheme stops; a wrapper is written only for an accepted link |
| TdlGuiEn.DownloadSingleFileWrites | GUI/EN/tdl_gui.py:145-154 | a wrapper is written exactly when the stripped answer is a valid message link |
| TdlGuiEn.SingleFileUrlSurvivesQuoting | GUI/EN/tdl_gui.py:152-169 | every accepted link reads back from the wrapper's literal unchanged |
| TdlGuiEn.PathOrDefault | GUI/EN/tdl_gui.py:213 | a result is kept as typed unless it is missing or strips to nothing |
| TdlGuiEn.PathOrDefaultBlank | GUI/EN/tdl_gui.py:213-220 | a cancelled, empty or whitespace-only path gives the launcher directory; any other text is kept raw |
| TdlGuiEn.DownloadRange | GUI/EN/tdl_gui.py:208-286 | the range download returns the record `RangeSession` specifies |
| TdlGuiEn.RangeSession | GUI/EN/tdl_gui.py:208-278 | a saved range record is valid and names two existing paths |
| TdlGuiEn.RangeSessionSaves | GUI/EN/tdl_gui.py:208-278 | a saved range record is valid, carries a base link and names existing paths |
| TdlGuiEn.DownloadFullChat | GUI/EN/tdl_gui.py:288-346 | the full-chat download returns the record `FullChatSession` specifies |
| TdlGuiEn.FullChatSession | GUI/EN/tdl_gui.py:288-338 | a saved full-chat record is valid and names two existing paths |
| TdlGuiEn.FullChatSessionSaves | GUI/EN/tdl_gui.py:288-338 | a saved full-chat record is valid, carries a message link and names existing paths |
| TdlGuiEn.RunPowerShellScript | GUI/EN/tdl_gui.py:27-46 | no launch exactly when the script is missing; `start PowerShell.exe -NoExit` with no window title, then `-Command` when there is a command and `-File` otherwise |
| TdlGuiEn.LoginTelegram | GUI/EN/tdl_gui.py:120-141 | no launch without `tdl.exe`; otherwise `PowerShell.exe` runs `& '<tdl.exe>' login` and stays open |
| Variants.SingleFileMainWithinTest | GUI/tdl_gui_test.py:267 | every single-file link of the main launcher passes the test launcher's check |
| Variants.SingleFileTestLooser | GUI/tdl_gui_test.py:267 | `https://example.com/` passes the test launcher's check and fails the main one |
| Variants.BaseLinkTestWithinMain | GUI/tdl_gui_test.py:358 | the test launcher's base links are among the main launcher's |
| Variants.MessageUrlTestWithinMain | GUI/tdl_gui_test.py:468 | the test launcher's full-chat links are among the main launcher's |
| Variants.TopicBaseLinkOnlyInMain | GUI/tdl_gui.py:361 | every topic base link `c/<id>/<topic>/` is a base link for the main launcher and not for the test launcher |
| Variants.TopicMessageUrlOnlyInMain | GUI/tdl_gui.py:449 | every topic message link `c/<id>/<topic>/<msg>` is a full-chat link for the main launcher and not for the test launcher |
| Variants.EnglishChecksMatchMain | GUI/EN/tdl_gui.py:152 | the English launcher's three checks accept exactly what the main launcher's accept |
| Variants.BlankPathRules | GUI/EN/tdl_gui.py:213 | a path of two spaces is saved as is by the main launcher and replaced by the launcher directory in the other two |
| Variants.PaddedPathRules | GUI/tdl_gui_test.py:200 | a path typed with surrounding spaces is kept raw by the main and English launchers and stripped by the test launcher |

## Left out

- The tkinter windows, widgets, labels, hints, message boxes and language switching are left out because they are display only. A dialog is its answer.
- `subprocess.Popen`, its working directory and launch errors are left out. A launch is the argument list it would be given.
- The version probes (`get_powershell_version`, `check_ps_version`), `shutil.which` and the `winget` install are external processes. Their outcomes are inputs: the `psVersion` parameter and the `ShellProbe` record.
- File reading, writing and copying are left out: `ensure_and_copy`, `write_state_json`, the text of `make_autoyes_wrapper`, and the UTF-16 re-encoding of `ensure_unicode_encoding`. The saved records are modelled as values; the JSON encoding is not.
- The content of the stock PowerShell scripts is an input `script` of the single-file download; a failure to copy or write it is not modelled.
- The `install_update_tdl` action is left out; it only copies the updater and runs it.
- `resource_path` and `get_launcher_dir` are left out because they depend on how the program is packaged. The launcher directory is a parameter.
- The initial values the dialogs prefill are left out, because they do not affect what is accepted. The one place a default can end a download is modelled: the endId prompt formats `startId + 99`, which raises `ValueError` once that number has more than 4300 digits.
- Python's `\d` also matches non-ASCII decimal digits, and `int()` accepts them too. The model reads digits as ASCII only.
- PyInt.ParseInt: the 4300-digit limit is the interpreter's default; a different `sys.set_int_max_str_digits` setting or an interpreter older than 3.10.7 is not modelled.
- PyInt.ParseIntToString: stated for integers whose decimal text has at most 4300 digits, because Python's `str` raises `ValueError` on longer ones.
- TdlGui.Settings: the close-terminal switch is a field. `Settings.RunScript` passes it to `RunPowerShellScript`; the functions built on that function, such as `LoginTelegram`, take it as a parameter.
- Handoff.RangeNumbers: the `while True` loops around the integer dialogs are modelled as one ask each. The dialogs already enforce the bounds the loops check, so the repeat branches cannot run.
- TdlGui.RunPowerShellScript: requires a script path or a command. The source raises a `TypeError` when given neither, and no caller does that.
- The test launcher's single-file wrapper and every launcher's login command are modelled as written. The corrected quoting is stated beside them, in `PsLiteral`.

## Findings

| source | as written | input that shows it | evidently intended | confidence | as-written member | corrected member |
|---|---|---|---|---|---|---|
| GUI/tdl_gui_test.py:279-281 | only `'` is doubled, and the check at line 267 lets any text after the scheme through; PowerShell also ends a single-quoted literal at the typographic quotes U+2018 to U+201B | the link `https://a’;calc;#`: the literal is `https://a` and `;calc;#'` runs as code | every PowerShell quote character doubled, so the literal is the whole link | high, not executed | TdlGuiTest.SmartQuoteUrlEscapesLiteral | PsLiteral.CorrectedAssignmentReadsBack |
| GUI/tdl_gui.py:296 | the path of `tdl.exe` is put between single quotes unescaped (also GUI/tdl_gui_test.py:256 and GUI/EN/tdl_gui.py:136) | a launcher directory `C:\O'Brien`: the literal is `C:\O` and `Brien\tdl.exe' login` follows it | the path's quote characters doubled, so the literal is the whole path | high, not executed | PsLiteral.LoginCommandApostrophe | PsLiteral.EscapedLoginCommandReadsBack |
