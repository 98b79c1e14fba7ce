/**
 * The modal input dialogs the launchers show. A dialog is abstracted to what
 * the user does with it: cancel it (`None`) or confirm it with some entry text
 * (`Some(text)`). A run of dialogs is a sequence of such answers; once the
 * sequence is used up, every further dialog counts as cancelled.
 *
 * `IntegerInputDialog` is the same class, line for line, in all three launchers.
 */
module Dialogs {
  import opened Text
  import opened PyInt

  /** The user's answer to the `k`-th dialog of a run; `None` (cancel) past the end. */
  function Answer(answers: seq<Option<string>>, k: int): (a: Option<string>)
    ensures a.Some? ==> 0 <= k < |answers| && a == answers[k]
  {
    if 0 <= k < |answers| then answers[k] else None
  }

  /** `v` satisfies whichever of the two bounds are given. */
  predicate InBounds(v: int, minvalue: Option<int>, maxvalue: Option<int>) {
    (minvalue.Some? ==> minvalue.value <= v) && (maxvalue.Some? ==> v <= maxvalue.value)
  }

  /**
   * The value `IntegerInputDialog.apply` stores for the entry `text`: the
   * integer `int(text)` when that parses and lies within the given bounds,
   * `None` when parsing fails or a bound is violated.
   */
  function BoundedInt(text: string, minvalue: Option<int>, maxvalue: Option<int>): (r: Option<int>)
    ensures r.Some? ==> ParseInt(text) == r && InBounds(r.value, minvalue, maxvalue)
    ensures r.None? ==> ParseInt(text).None? || !InBounds(ParseInt(text).value, minvalue, maxvalue)
  {
    match ParseInt(text)
    case None => None
    case Some(v) => if InBounds(v, minvalue, maxvalue) then Some(v) else None
  }

  /** Every printable in-range integer typed as its decimal text is accepted as itself. */
  lemma BoundedIntAcceptsNumeral(v: int, minvalue: Option<int>, maxvalue: Option<int>)
    requires InBounds(v, minvalue, maxvalue) && StrDefined(v)
    ensures BoundedInt(IntToString(v), minvalue, maxvalue) == Some(v)
  {
    ParseIntToString(v);
  }

  /**
   * What `IntegerInputDialog(...).result` holds after the dialog closes: `None`
   * when it was cancelled, otherwise what `apply` stores for the entry.
   */
  function IntegerDialogResult(minvalue: Option<int>, maxvalue: Option<int>, answer: Option<string>): (r: Option<int>)
    ensures r.Some? ==> answer.Some? && InBounds(r.value, minvalue, maxvalue)
    ensures answer.Some? && ParseInt(answer.value).Some? && InBounds(ParseInt(answer.value).value, minvalue, maxvalue)
            ==> r == ParseInt(answer.value)
  {
    if answer.None? then None else BoundedInt(answer.value, minvalue, maxvalue)
  }

  class IntegerInputDialog {
    const minvalue: Option<int>
    const maxvalue: Option<int>
    /** `None` until the user confirms an acceptable entry. */
    var result: Option<int>

    constructor (minvalue: Option<int>, maxvalue: Option<int>)
      ensures this.minvalue == minvalue && this.maxvalue == maxvalue
      ensures result == None
    {
      this.minvalue := minvalue;
      this.maxvalue := maxvalue;
      result := None;
    }

    /** Runs when the user confirms the dialog with `entry` in its field. */
    method Apply(entry: string)
      modifies this
      ensures result == BoundedInt(entry, minvalue, maxvalue)
      ensures result.Some? ==> InBounds(result.value, minvalue, maxvalue)
    {
      var parsed := ParseInt(entry);
      if parsed.None? {
        result := None;
        return;
      }
      var val := parsed.value;
      if minvalue.Some? && val < minvalue.value {
        result := None;
        return;
      }
      if maxvalue.Some? && val > maxvalue.value {
        result := None;
        return;
      }
      result := Some(val);
    }
  }

  /**
   * `IntegerInputDialog(...).result`: show a fresh dialog, let the user answer,
   * and read the result. A cancelled dialog never runs `apply`.
   */
  method AskInteger(minvalue: Option<int>, maxvalue: Option<int>, answer: Option<string>)
    returns (r: Option<int>)
    ensures r == IntegerDialogResult(minvalue, maxvalue, answer)
  {
    var dlg := new IntegerInputDialog(minvalue, maxvalue);
    if answer.Some? {
      dlg.Apply(answer.value);
    }
    r := dlg.result;
  }

  /**
   * The string dialog of the two launchers whose `apply` keeps the entry text
   * as typed (`self.result = self.entry.get()`).
   */
  class StringInputDialog {
    /** `None` until the user confirms the dialog. */
    var result: Option<string>

    constructor ()
      ensures result == None
    {
      result := None;
    }

    method Apply(entry: string)
      modifies this
      ensures result == Some(entry)
    {
      result := Some(entry);
    }
  }

  /** `StringInputDialog(...).result`: the entry text as typed, or `None` if cancelled. */
  method AskString(answer: Option<string>) returns (r: Option<string>)
    ensures r == answer
  {
    var dlg := new StringInputDialog();
    if answer.Some? {
      dlg.Apply(answer.value);
    }
    r := dlg.result;
  }
}
