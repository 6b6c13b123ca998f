/**
 * The content script (content.js) that runs on every page: it remembers the last short
 * selection the user made with the mouse and answers `getSelectedText` with the live
 * selection, falling back to the remembered one.
 */
module Content {

  import opened Options
  import opened JsString

  /** A trimmed selection short enough to remember: between 1 and 49 characters. */
  predicate Rememberable(t: string) {
    0 < |t| < 50
  }

  /** What `selectedText` can hold: "" or a trimmed string of 1 to 49 characters. */
  predicate Remembered(s: string) {
    s == "" || (Rememberable(s) && Trimmed(s))
  }

  /** The `mouseup` rule: the trimmed selection replaces `held` when it is rememberable. */
  function Remember(held: string, selection: string): string {
    var t := Trim(selection);
    if Rememberable(t) then t else held
  }

  /** The `getSelectedText` answer: the trimmed live selection when non-empty, else `held`. */
  function Answer(held: string, selection: string): (r: string)
    ensures Trim(selection) != "" ==> r == Trim(selection)
    ensures Trim(selection) == "" ==> r == held
  {
    var t := Trim(selection);
    if t != "" then t else held
  }

  /**
   * A `mouseup` either leaves `held` as it is or replaces it by the trimmed selection,
   * and it replaces it exactly when that selection is rememberable.
   */
  lemma RememberChangesOnlyToShortSelections(held: string, selection: string)
    ensures Remember(held, selection) == held || Remember(held, selection) == Trim(selection)
    ensures Rememberable(Trim(selection)) ==> Remember(held, selection) == Trim(selection)
    ensures Remember(held, selection) != held ==> Rememberable(Trim(selection))
  {
  }

  /** Every `mouseup` keeps `selectedText` "" or a trimmed string of 1 to 49 characters. */
  lemma RememberKeepsShape(held: string, selection: string)
    requires Remembered(held)
    ensures Remembered(Remember(held, selection))
  {
  }

  /** The answer is always trimmed: a live selection is trimmed, and so is what was remembered. */
  lemma AnswerIsTrimmed(held: string, selection: string)
    requires Remembered(held)
    ensures Trimmed(Answer(held, selection))
    ensures Answer(held, selection) == "" <==> Trim(selection) == "" && held == ""
  {
  }

  /** The page's script state: the module-level `selectedText`. */
  class SelectionCapture {
    var selectedText: string

    ghost predicate Valid()
      reads this
    {
      Remembered(selectedText)
    }

    /** The script loads with nothing remembered. */
    constructor ()
      ensures Valid() && selectedText == ""
    {
      selectedText := "";
    }

    /** The `mouseup` listener; `selection` is `window.getSelection().toString()`. */
    method OnMouseUp(selection: string)
      requires Valid()
      modifies this
      ensures Valid()
      ensures selectedText == Remember(old(selectedText), selection)
    {
      RememberKeepsShape(selectedText, selection);
      selectedText := Remember(selectedText, selection);
    }

    /**
     * The `onMessage` listener: a `getSelectedText` request is answered with the live
     * selection (trimmed) or, when that is empty, the remembered one; other requests get
     * no answer. Answering changes nothing.
     */
    method OnMessage(action: string, selection: string) returns (reply: Option<string>)
      requires Valid()
      ensures action == "getSelectedText" ==> reply == Some(Answer(selectedText, selection))
      ensures action != "getSelectedText" ==> reply.None?
      ensures reply.Some? ==> Trimmed(reply.value)
    {
      if action == "getSelectedText" {
        var live := Trim(selection);
        AnswerIsTrimmed(selectedText, selection);
        return Some(if live != "" then live else selectedText);
      }
      reply := None;
    }
  }
}
