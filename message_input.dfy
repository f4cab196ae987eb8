/**
 * The message composer (src/components/MessageInput.js): a draft text, a
 * submit guard that trims it and refuses empty, disabled or over-long input,
 * the Enter-key shortcut and the send button's enabled state.
 */
module MessageInput {
  import opened Wrappers
  import opened JsString

  const MaxMessageLength := 1000

  /** What `handleSubmit` passes to `onSendMessage`, or `None` when it returns early. */
  function SubmittedText(draft: string, disabled: bool): (r: Option<string>)
    ensures disabled ==> r.None?
    ensures AllWhitespace(draft) ==> r.None?
    ensures r.Some? ==> r.value == Trim(draft)
    ensures r.Some? ==> 1 <= |r.value| && Utf16Length(r.value) <= MaxMessageLength && NoEdgeWhitespace(r.value)
    ensures r.None? <==> disabled || AllWhitespace(draft) || Utf16Length(Trim(draft)) > MaxMessageLength
  {
    var t := Trim(draft);
    TrimEmptyIff(draft);
    if t == "" || disabled then None
    else if Utf16Length(t) > MaxMessageLength then None
    else Some(t)
  }

  /** The send button's `disabled` attribute (line 87). */
  predicate SendButtonDisabled(draft: string, disabled: bool) {
    Trim(draft) == "" || disabled
  }

  /**
   * The button is disabled exactly when the first guard of `handleSubmit`
   * returns; an enabled button still sends nothing for an over-long draft.
   */
  lemma SendButtonMatchesGuard(draft: string, disabled: bool)
    ensures SendButtonDisabled(draft, disabled) ==> SubmittedText(draft, disabled).None?
    ensures !SendButtonDisabled(draft, disabled) ==>
      (SubmittedText(draft, disabled).Some? <==> Utf16Length(Trim(draft)) <= MaxMessageLength)
    ensures SendButtonDisabled(draft, disabled) <==> disabled || AllWhitespace(draft)
  {
    TrimEmptyIff(draft);
  }

  /** `e.key === 'Enter' && !e.shiftKey`: the key press that submits. */
  predicate IsSubmitKey(key: string, shiftKey: bool) {
    key == "Enter" && !shiftKey
  }

  /** The composer's state: the draft and the texts handed to `onSendMessage`, in order. */
  class MessageComposer {
    var message: string
    var sent: seq<string>

    constructor ()
      ensures message == "" && sent == []
    {
      message, sent := "", [];
    }

    /** Typing replaces the draft (line 49). */
    method HandleChange(value: string)
      modifies this
      ensures message == value && sent == old(sent)
    {
      message := value;
    }

    /** On success the trimmed text is sent once and the draft cleared; otherwise nothing changes. */
    method HandleSubmit(disabled: bool)
      modifies this
      ensures match SubmittedText(old(message), disabled)
        case Some(text) => sent == old(sent) + [text] && message == ""
        case None => sent == old(sent) && message == old(message)
    {
      match SubmittedText(message, disabled)
      case Some(text) =>
        sent := sent + [text];
        message := "";
      case None =>
    }

    /** Enter without Shift submits; any other key leaves the composer as it was. */
    method HandleKeyPress(key: string, shiftKey: bool, disabled: bool)
      modifies this
      ensures IsSubmitKey(key, shiftKey) ==> match SubmittedText(old(message), disabled)
        case Some(text) => sent == old(sent) + [text] && message == ""
        case None => sent == old(sent) && message == old(message)
      ensures !IsSubmitKey(key, shiftKey) ==> sent == old(sent) && message == old(message)
    {
      if IsSubmitKey(key, shiftKey) {
        HandleSubmit(disabled);
      }
    }
  }
}
