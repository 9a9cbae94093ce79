/** The message box: what may be sent, sending, and the auto-growing height. */
module ChatInput {

  /** The textarea grows up to four 24-pixel lines. */
  const MaxHeight: nat := 24 * 4

  /** `canSend`. */
  predicate CanSend(disabled: bool, message: string) {
    !disabled && |message| > 0
  }

  /** `Math.min(el.scrollHeight, 24 * 4)`: the content height, capped. */
  function Height(scrollHeight: nat): (h: nat)
    ensures h <= MaxHeight && h <= scrollHeight
    ensures h == scrollHeight || h == MaxHeight
  {
    if scrollHeight < MaxHeight then scrollHeight else MaxHeight
  }

  class ChatInput {
    /** The `message` state. */
    var message: string
    /** The textarea's own `value`. */
    var textValue: string
    /** `style.height` in pixels. */
    var height: nat
    /** The `onMessage` calls, in order. */
    var sent: seq<string>

    /** No empty message is ever sent. */
    ghost predicate Valid()
      reads this
    {
      forall i :: 0 <= i < |sent| ==> |sent[i]| > 0
    }

    constructor()
      ensures message == "" && textValue == "" && height == 0 && sent == []
      ensures Valid()
    {
      message, textValue, height, sent := "", "", 0, [];
    }

    /** `adjustSize`: the height follows the content, up to the cap. */
    method AdjustSize(scrollHeight: nat)
      modifies this`height
      ensures height == Height(scrollHeight)
    {
      height := 0;
      height := Height(scrollHeight);
    }

    /** Typing: the message follows the textarea, and the box is resized. */
    method OnChange(value: string, scrollHeight: nat)
      requires Valid()
      modifies this`message, this`textValue, this`height
      ensures Valid()
      ensures message == value && textValue == value && height == Height(scrollHeight)
    {
      message := value;
      textValue := value;
      AdjustSize(scrollHeight);
    }

    /** `onSend`: when sending is allowed, the message is handed over once and the box emptied. */
    method OnSend(disabled: bool, scrollHeight: nat)
      requires Valid()
      modifies this`message, this`textValue, this`height, this`sent
      ensures Valid()
      ensures old(CanSend(disabled, message)) ==>
        sent == old(sent) + [old(message)] && message == "" && textValue == "" && height == Height(scrollHeight)
      ensures !old(CanSend(disabled, message)) ==>
        sent == old(sent) && message == old(message) && textValue == old(textValue) && height == old(height)
    {
      if CanSend(disabled, message) {
        sent := sent + [message];
        message := "";
        textValue := "";
        AdjustSize(scrollHeight);
      }
    }

    /** Enter goes through the same guard as the send button; other keys do nothing here. */
    method OnKeyDown(key: string, disabled: bool, scrollHeight: nat)
      requires Valid()
      modifies this`message, this`textValue, this`height, this`sent
      ensures Valid()
      ensures key == "Enter" && old(CanSend(disabled, message)) ==>
        && sent == old(sent) + [old(message)] && message == "" && textValue == ""
        && height == Height(scrollHeight)
      ensures key != "Enter" || !old(CanSend(disabled, message)) ==>
        sent == old(sent) && message == old(message) && textValue == old(textValue) && height == old(height)
    {
      if key == "Enter" {
        OnSend(disabled, scrollHeight);
      }
    }
  }
}
