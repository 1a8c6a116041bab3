// The coach chat's message box: the submit guard around the trimmed text,
// Enter versus Shift+Enter, the Send button's disabled state and the voice
// recording flag. `disabled` is the parent's prop, passed to each handler.

module ChatInput {
  import opened Wrappers
  import opened Strings

  /** What a submit sends: the trimmed text, unless it is empty or the box is disabled. */
  function Outgoing(message: string, disabled: bool): (sent: Option<string>)
    ensures sent.None? <==> AllSpace(message) || disabled
    ensures sent.Some? ==> sent.value == Trim(message) && sent.value != "" && Trim(sent.value) == sent.value
  {
    TrimEmptyIff(message);
    TrimIdempotent(message);
    if Trim(message) != "" && !disabled then Some(Trim(message)) else None
  }

  class InputBox {
    var message: string
    var isRecording: bool

    constructor ()
      ensures message == "" && !isRecording
    {
      message := "";
      isRecording := false;
    }

    /** Typing replaces the text. */
    method Type(text: string)
      modifies this
      ensures message == text && isRecording == old(isRecording)
    {
      message := text;
    }

    /** `handleSubmit`: send the trimmed text and clear the box, or do nothing. */
    method Submit(disabled: bool) returns (sent: Option<string>)
      modifies this
      ensures sent == Outgoing(old(message), disabled)
      ensures message == if sent.Some? then "" else old(message)
      ensures isRecording == old(isRecording)
    {
      if Trim(message) != "" && !disabled {
        sent := Some(Trim(message));
        message := "";
      } else {
        sent := None;
      }
    }

    /** `handleKeyPress`: Enter without Shift submits; any other key, Shift+Enter included, changes nothing here. */
    method KeyPress(key: string, shiftKey: bool, disabled: bool) returns (sent: Option<string>)
      modifies this
      ensures key == "Enter" && !shiftKey ==> (sent == Outgoing(old(message), disabled)
        && message == (if sent.Some? then "" else old(message)))
      ensures !(key == "Enter" && !shiftKey) ==> sent == None && message == old(message)
      ensures isRecording == old(isRecording)
    {
      if key == "Enter" && !shiftKey {
        sent := Submit(disabled);
      } else {
        sent := None;
      }
    }

    /** The microphone button flips the recording flag. */
    method ToggleRecording()
      modifies this
      ensures isRecording == !old(isRecording) && message == old(message)
    {
      isRecording := !isRecording;
    }

    /** The Send button is disabled exactly when a submit would send nothing. */
    function SendDisabled(disabled: bool): (d: bool)
      reads this
      ensures d <==> Outgoing(message, disabled).None?
    {
      TrimEmptyIff(message);
      Trim(message) == "" || disabled
    }
  }

  /** Sending twice in a row sends once: the second submit finds an empty box. */
  method SubmitTwice(box: InputBox, disabled: bool) returns (first: Option<string>, second: Option<string>)
    modifies box
    ensures first == Outgoing(old(box.message), disabled)
    ensures first.Some? ==> second == None
  {
    first := box.Submit(disabled);
    second := box.Submit(disabled);
  }
}
