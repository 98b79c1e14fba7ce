/**
 * What the range and full-chat downloads hand to their PowerShell scripts.
 * The parts here are the same in all three launchers. The launcher modules
 * supply what differs: the link recognisers and the rule that turns a path
 * dialog's result into a path.
 *
 * A download first asks for two paths, with answers 0 and 1 of the run. It
 * then asks for a link, again and again until one is accepted. Each later
 * prompt consumes the next answer. The integer dialogs follow.
 */
module Handoff {
  import opened Text
  import opened PyInt
  import opened Dialogs
  import opened TmeLinks

  /** The fixed `maxRetries` entry of every saved record. */
  const MaxRetries: int := 1

  /** The state file of a range download (`tdl_easy_runner.json`). */
  datatype RangeRecord = RangeRecord(
    tdlPath: string,
    telegramUrl: string,
    mediaDir: string,
    startId: int,
    endId: int,
    downloadLimit: int,
    threads: int,
    maxRetries: int)
  {
    predicate Valid() {
      && 1 <= startId <= endId
      && 1 <= downloadLimit <= 10
      && 1 <= threads <= 8
      && maxRetries == MaxRetries
    }
  }

  /** The state file of a full-chat download. */
  datatype FullChatRecord = FullChatRecord(
    tdlPath: string,
    telegramMessageUrl: string,
    mediaDir: string,
    downloadLimit: int,
    threads: int,
    maxRetries: int)
  {
    predicate Valid() {
      && 1 <= downloadLimit <= 10
      && 1 <= threads <= 8
      && maxRetries == MaxRetries
    }
  }

  // ---------------------------------------------------------------------------
  // The link prompt loop
  // ---------------------------------------------------------------------------

  /**
   * The link prompt loop, starting with answer `i`. A cancelled or empty
   * answer ends the download (`None`). Otherwise the answer is prepared
   * (stripped, and for a base link given its trailing `/`). A prepared link
   * that `accept` rejects leads to a new prompt. The result is the accepted
   * link and the index of the next unused answer.
   */
  function LinkPrompt(prepare: string -> string, accept: string -> bool, answers: seq<Option<string>>, i: nat)
    : (r: Option<(string, nat)>)
    ensures r.Some? ==>
      && i < r.value.1 <= |answers|
      && answers[r.value.1 - 1].Some?
      && r.value.0 == prepare(answers[r.value.1 - 1].value)
      && accept(r.value.0)
    ensures r.Some? ==> forall j :: i <= j < r.value.1 - 1 ==>
      Truthy(answers[j]) && !accept(prepare(answers[j].value))
    ensures r.None? ==> exists j :: i <= j && !Truthy(Answer(answers, j)) && Rejected(prepare, accept, answers, i, j)
    decreases |answers| - i
  {
    var a := Answer(answers, i);
    if !Truthy(a) then None
    else
      var link := prepare(a.value);
      if accept(link) then Some((link, i + 1))
      else LinkPrompt(prepare, accept, answers, i + 1)
  }

  /** Every answer from `i` up to (not including) `j` was given and rejected. */
  predicate Rejected(prepare: string -> string, accept: string -> bool, answers: seq<Option<string>>, i: nat, j: nat) {
    forall j' :: i <= j' < j ==> Truthy(Answer(answers, j')) && !accept(prepare(Answer(answers, j').value))
  }

  /** The loop itself: `while True`, `askstring`, prepare, test, `break` or prompt again. */
  method PromptLink(prepare: string -> string, accept: string -> bool, answers: seq<Option<string>>, i: nat)
    returns (r: Option<(string, nat)>)
    ensures r == LinkPrompt(prepare, accept, answers, i)
  {
    var k := i;
    while true
      invariant i <= k
      invariant LinkPrompt(prepare, accept, answers, k) == LinkPrompt(prepare, accept, answers, i)
      decreases |answers| - k
    {
      var link := Answer(answers, k);
      if !Truthy(link) {
        return None;
      }
      var prepared := prepare(link.value);
      if accept(prepared) {
        return Some((prepared, k + 1));
      }
      k := k + 1;
    }
  }

  // ---------------------------------------------------------------------------
  // The integer dialogs
  // ---------------------------------------------------------------------------

  /**
   * startId (at least 1), endId (at least startId), downloadLimit (1..10) and
   * threads (1..8) from the answers `k` to `k + 3`. Any dialog that yields no
   * value ends the download. The endId prompt prints the default
   * `startId + 99`; when that has more than 4300 digits `str` raises
   * `ValueError`, nothing catches it, and the download ends before the dialog
   * opens.
   */
  function RangeNumbers(answers: seq<Option<string>>, k: nat): (r: Option<(int, int, int, int)>)
    ensures r.Some? ==> 1 <= r.value.0 <= r.value.1 && 1 <= r.value.2 <= 10 && 1 <= r.value.3 <= 8
    ensures r.Some? ==> StrDefined(r.value.0 + 99)
  {
    var startId := IntegerDialogResult(Some(1), None, Answer(answers, k));
    if startId.None? || !StrDefined(startId.value + 99) then None
    else
      var endId := IntegerDialogResult(Some(startId.value), None, Answer(answers, k + 1));
      if endId.None? then None
      else
        match ChatNumbers(answers, k + 2)
        case None => None
        case Some((limit, threads)) => Some((startId.value, endId.value, limit, threads))
  }

  /** downloadLimit (1..10) and threads (1..8) from the answers `k` and `k + 1`. */
  function ChatNumbers(answers: seq<Option<string>>, k: nat): (r: Option<(int, int)>)
    ensures r.Some? ==> 1 <= r.value.0 <= 10 && 1 <= r.value.1 <= 8
  {
    var limit := IntegerDialogResult(Some(1), Some(10), Answer(answers, k));
    if limit.None? then None
    else
      var threads := IntegerDialogResult(Some(1), Some(8), Answer(answers, k + 1));
      if threads.None? then None
      else Some((limit.value, threads.value))
  }

  /**
   * Everything a range download asks after the two paths, and the record it saves.
   * A saved record is always valid and its link is one `accept` took.
   */
  function RangeFromAnswers(accept: string -> bool, tdlPath: string, mediaDir: string, answers: seq<Option<string>>)
    : (r: Option<RangeRecord>)
    ensures r.Some? ==> r.value.Valid() && accept(r.value.telegramUrl)
    ensures r.Some? ==> r.value.tdlPath == tdlPath && r.value.mediaDir == mediaDir
  {
    match LinkPrompt(NormaliseBase, accept, answers, 2)
    case None => None
    case Some((link, k)) =>
      match RangeNumbers(answers, k)
      case None => None
      case Some((startId, endId, limit, threads)) =>
        Some(RangeRecord(tdlPath, link, mediaDir, startId, endId, limit, threads, MaxRetries))
  }

  /** Everything a full-chat download asks after the two paths, and the record it saves. */
  function FullChatFromAnswers(accept: string -> bool, tdlPath: string, mediaDir: string, answers: seq<Option<string>>)
    : (r: Option<FullChatRecord>)
    ensures r.Some? ==> r.value.Valid() && accept(r.value.telegramMessageUrl)
    ensures r.Some? ==> r.value.tdlPath == tdlPath && r.value.mediaDir == mediaDir
  {
    match LinkPrompt(Strip, accept, answers, 2)
    case None => None
    case Some((url, k)) =>
      match ChatNumbers(answers, k)
      case None => None
      case Some((limit, threads)) =>
        Some(FullChatRecord(tdlPath, url, mediaDir, limit, threads, MaxRetries))
  }

  /**
   * The integer dialogs of a range download, as the launchers run them. Each
   * dialog sits in a `while True` loop whose exit test repeats the dialog's
   * own bounds. A dialog never returns a value outside its bounds, so each
   * test holds on the first pass, and the model asks each dialog once.
   */
  method AskRangeNumbers(answers: seq<Option<string>>, k: nat) returns (r: Option<(int, int, int, int)>)
    ensures r == RangeNumbers(answers, k)
  {
    var startId := AskInteger(Some(1), None, Answer(answers, k));
    if startId.None? || !StrDefined(startId.value + 99) {
      return None;
    }
    var endId := AskInteger(Some(startId.value), None, Answer(answers, k + 1));
    if endId.None? {
      return None;
    }
    assert endId.value >= startId.value;
    var numbers := AskChatNumbers(answers, k + 2);
    if numbers.None? {
      return None;
    }
    r := Some((startId.value, endId.value, numbers.value.0, numbers.value.1));
  }

  /** The downloadLimit and threads dialogs. */
  method AskChatNumbers(answers: seq<Option<string>>, k: nat) returns (r: Option<(int, int)>)
    ensures r == ChatNumbers(answers, k)
  {
    var limit := AskInteger(Some(1), Some(10), Answer(answers, k));
    if limit.None? {
      return None;
    }
    assert 1 <= limit.value <= 10;
    var threads := AskInteger(Some(1), Some(8), Answer(answers, k + 1));
    if threads.None? {
      return None;
    }
    assert 1 <= threads.value <= 8;
    r := Some((limit.value, threads.value));
  }

  /** The range download after the path dialogs. */
  method CollectRange(accept: string -> bool, tdlPath: string, mediaDir: string, answers: seq<Option<string>>)
    returns (r: Option<RangeRecord>)
    ensures r == RangeFromAnswers(accept, tdlPath, mediaDir, answers)
  {
    var link := PromptLink(NormaliseBase, accept, answers, 2);
    if link.None? {
      return None;
    }
    var numbers := AskRangeNumbers(answers, link.value.1);
    if numbers.None? {
      return None;
    }
    var (startId, endId, limit, threads) := numbers.value;
    r := Some(RangeRecord(tdlPath, link.value.0, mediaDir, startId, endId, limit, threads, MaxRetries));
  }

  /** The full-chat download after the path dialogs. */
  method CollectFullChat(accept: string -> bool, tdlPath: string, mediaDir: string, answers: seq<Option<string>>)
    returns (r: Option<FullChatRecord>)
    ensures r == FullChatFromAnswers(accept, tdlPath, mediaDir, answers)
  {
    var url := PromptLink(Strip, accept, answers, 2);
    if url.None? {
      return None;
    }
    var numbers := AskChatNumbers(answers, url.value.1);
    if numbers.None? {
      return None;
    }
    r := Some(FullChatRecord(tdlPath, url.value.0, mediaDir, numbers.value.0, numbers.value.1, MaxRetries));
  }

  // ---------------------------------------------------------------------------
  // Every well-formed run of answers is saved as typed
  // ---------------------------------------------------------------------------

  /**
   * A range download whose link is accepted at once and whose four numbers
   * are typed in range saves exactly those values.
   */
  lemma RangeFromAnswersAccepts(
    accept: string -> bool, tdlPath: string, mediaDir: string, answers: seq<Option<string>>,
    link: string, startId: int, endId: int, limit: int, threads: int)
    requires link != [] && accept(NormaliseBase(link))
    requires 1 <= startId <= endId && 1 <= limit <= 10 && 1 <= threads <= 8
    requires StrDefined(startId) && StrDefined(startId + 99) && StrDefined(endId)
    requires Answer(answers, 2) == Some(link)
    requires Answer(answers, 3) == Some(IntToString(startId)) && Answer(answers, 4) == Some(IntToString(endId))
    requires Answer(answers, 5) == Some(IntToString(limit)) && Answer(answers, 6) == Some(IntToString(threads))
    ensures RangeFromAnswers(accept, tdlPath, mediaDir, answers)
      == Some(RangeRecord(tdlPath, NormaliseBase(link), mediaDir, startId, endId, limit, threads, MaxRetries))
  {
    LinkPromptFirst(NormaliseBase, accept, answers, 2);
    RangeNumbersAccepts(answers, 3, startId, endId, limit, threads);
    RangeFromParts(accept, tdlPath, mediaDir, answers, NormaliseBase(link), 3, (startId, endId, limit, threads));
  }

  /** A range record is the accepted link and the four numbers that follow it. */
  lemma RangeFromParts(
    accept: string -> bool, tdlPath: string, mediaDir: string, answers: seq<Option<string>>,
    link: string, k: nat, numbers: (int, int, int, int))
    requires LinkPrompt(NormaliseBase, accept, answers, 2) == Some((link, k))
    requires RangeNumbers(answers, k) == Some(numbers)
    ensures RangeFromAnswers(accept, tdlPath, mediaDir, answers)
      == Some(RangeRecord(tdlPath, link, mediaDir, numbers.0, numbers.1, numbers.2, numbers.3, MaxRetries))
  {
  }

  /** A first answer that is given and accepted ends the prompt loop at once. */
  lemma LinkPromptFirst(prepare: string -> string, accept: string -> bool, answers: seq<Option<string>>, i: nat)
    requires Truthy(Answer(answers, i)) && accept(prepare(Answer(answers, i).value))
    ensures LinkPrompt(prepare, accept, answers, i) == Some((prepare(Answer(answers, i).value), i + 1))
  {
  }

  /** Numbers typed in range are taken as typed. */
  lemma RangeNumbersAccepts(answers: seq<Option<string>>, k: nat, startId: int, endId: int, limit: int, threads: int)
    requires 1 <= startId <= endId && 1 <= limit <= 10 && 1 <= threads <= 8
    requires StrDefined(startId) && StrDefined(startId + 99) && StrDefined(endId)
    requires Answer(answers, k) == Some(IntToString(startId)) && Answer(answers, k + 1) == Some(IntToString(endId))
    requires Answer(answers, k + 2) == Some(IntToString(limit)) && Answer(answers, k + 3) == Some(IntToString(threads))
    ensures RangeNumbers(answers, k) == Some((startId, endId, limit, threads))
  {
    IdsAccepted(Answer(answers, k), Answer(answers, k + 1), startId, endId);
    ChatNumbersAccepts(answers, k + 2, limit, threads);
  }

  /** The startId and endId dialogs take in-range numerals as typed. */
  lemma IdsAccepted(first: Option<string>, second: Option<string>, startId: int, endId: int)
    requires 1 <= startId <= endId && StrDefined(startId) && StrDefined(endId)
    requires first == Some(IntToString(startId)) && second == Some(IntToString(endId))
    ensures IntegerDialogResult(Some(1), None, first) == Some(startId)
    ensures IntegerDialogResult(Some(startId), None, second) == Some(endId)
  {
    BoundedIntAcceptsNumeral(startId, Some(1), None);
    BoundedIntAcceptsNumeral(endId, Some(startId), None);
  }

  /**
   * A startId whose default endId `startId + 99` cannot be printed ends the
   * range download, whatever is answered after it.
   */
  lemma RangeNumbersRefusesUnprintableDefault(answers: seq<Option<string>>, k: nat, startId: int)
    requires 1 <= startId && StrDefined(startId) && !StrDefined(startId + 99)
    requires Answer(answers, k) == Some(IntToString(startId))
    ensures RangeNumbers(answers, k) == None
  {
    BoundedIntAcceptsNumeral(startId, Some(1), None);
    var first := IntegerDialogResult(Some(1), None, Answer(answers, k));
    assert first == Some(startId);
    assert !StrDefined(first.value + 99);
  }

  /** Numbers typed in range are taken as typed. */
  lemma ChatNumbersAccepts(answers: seq<Option<string>>, k: nat, limit: int, threads: int)
    requires 1 <= limit <= 10 && 1 <= threads <= 8
    requires Answer(answers, k) == Some(IntToString(limit)) && Answer(answers, k + 1) == Some(IntToString(threads))
    ensures ChatNumbers(answers, k) == Some((limit, threads))
  {
    StrDefinedSmall(limit);
    StrDefinedSmall(threads);
    BoundedIntAcceptsNumeral(limit, Some(1), Some(10));
    BoundedIntAcceptsNumeral(threads, Some(1), Some(8));
  }

  /**
   * A full-chat download whose link is accepted at once and whose two
   * numbers are typed in range saves exactly those values.
   */
  lemma FullChatFromAnswersAccepts(
    accept: string -> bool, tdlPath: string, mediaDir: string, answers: seq<Option<string>>,
    url: string, limit: int, threads: int)
    requires url != [] && accept(Strip(url))
    requires 1 <= limit <= 10 && 1 <= threads <= 8
    requires Answer(answers, 2) == Some(url)
    requires Answer(answers, 3) == Some(IntToString(limit)) && Answer(answers, 4) == Some(IntToString(threads))
    ensures FullChatFromAnswers(accept, tdlPath, mediaDir, answers)
      == Some(FullChatRecord(tdlPath, Strip(url), mediaDir, limit, threads, MaxRetries))
  {
    LinkPromptFirst(Strip, accept, answers, 2);
    ChatNumbersAccepts(answers, 3, limit, threads);
    FullChatFromParts(accept, tdlPath, mediaDir, answers, Strip(url), 3, (limit, threads));
  }

  /** A full-chat record is the accepted link and the two numbers that follow it. */
  lemma FullChatFromParts(
    accept: string -> bool, tdlPath: string, mediaDir: string, answers: seq<Option<string>>,
    url: string, k: nat, numbers: (int, int))
    requires LinkPrompt(Strip, accept, answers, 2) == Some((url, k))
    requires ChatNumbers(answers, k) == Some(numbers)
    ensures FullChatFromAnswers(accept, tdlPath, mediaDir, answers)
      == Some(FullChatRecord(tdlPath, url, mediaDir, numbers.0, numbers.1, MaxRetries))
  {
  }
}
