/**
 * The IM message blocks of `kirara_ai/workflow/implementations/blocks/im/messages.py`:
 * `text_to_im_message`, `concat_im_message` and `im_message_to_text`.
 */
module ImBlocks {
  import opened Wrappers
  import opened Text
  import opened Messages

  /**
   * `TextToIMMessage(split_by).execute(text)`: with a non-empty separator, one text element per
   * non-blank piece, stripped; otherwise one text element holding `text` as it is.
   */
  function TextToImMessage(splitBy: Option<string>, text: string, bot: ChatSender): (msg: ImMessage)
    ensures msg.sender == bot
    ensures splitBy.None? || splitBy.value == [] ==> msg.elements == [TextElement(text)]
    ensures splitBy.Some? && splitBy.value != [] ==>
      msg.elements == TextElements(NonBlankPieces(text, splitBy.value))
  {
    if splitBy.Some? && splitBy.value != [] then
      ImMessage(bot, TextElements(NonBlankPieces(text, splitBy.value)))
    else
      ImMessage(bot, [TextElement(text)])
  }

  /** Splitting yields only text elements whose texts are non-empty and already stripped. */
  lemma SplitElementsClean(text: string, sep: string, bot: ChatSender)
    requires sep != []
    ensures var elements := TextToImMessage(Some(sep), text, bot).elements;
      && |elements| <= |Split(text, sep)|
      && forall k :: 0 <= k < |elements| ==>
           elements[k].TextElement? && elements[k].text != [] && Strip(elements[k].text) == elements[k].text
  {
    var kept := NonBlankPieces(text, sep);
    var elements := TextToImMessage(Some(sep), text, bot).elements;
    StrippedNonBlankClean(Split(text, sep));
    forall k | 0 <= k < |elements|
      ensures elements[k].TextElement? && elements[k].text != [] && Strip(elements[k].text) == elements[k].text
    {
      assert elements[k].text == kept[k] && kept[k] in kept;
    }
  }

  /** Each element's text is a piece of the text, stripped. */
  lemma SplitElementsArePieces(text: string, sep: string, bot: ChatSender)
    requires sep != []
    ensures var elements := TextToImMessage(Some(sep), text, bot).elements;
      forall k :: 0 <= k < |elements| ==> exists p :: p in Split(text, sep) && Strip(p) == elements[k].text
  {
    var pieces := Split(text, sep);
    var kept := StrippedNonBlank(pieces);
    var elements := TextElements(kept);
    assert TextToImMessage(Some(sep), text, bot).elements == elements;
    StrippedNonBlankFrom(pieces);
    forall k | 0 <= k < |elements| ensures exists p :: p in pieces && Strip(p) == elements[k].text {
      assert elements[k].text == kept[k];
      assert kept[k] in kept;
    }
  }

  /** Every non-blank piece of the text gives an element. */
  lemma SplitKeepsNonBlankPieces(text: string, sep: string, bot: ChatSender)
    requires sep != []
    ensures var elements := TextToImMessage(Some(sep), text, bot).elements;
      forall p :: p in Split(text, sep) && !IsBlank(p) ==> TextElement(Strip(p)) in elements
  {
    var pieces := Split(text, sep);
    var kept := NonBlankPieces(text, sep);
    var elements := TextToImMessage(Some(sep), text, bot).elements;
    StrippedNonBlankKeeps(pieces);
    forall p | p in pieces && !IsBlank(p) ensures TextElement(Strip(p)) in elements {
      var k :| 0 <= k < |kept| && kept[k] == Strip(p);
      assert elements[k] == TextElement(Strip(p));
    }
  }

  /** Text without the separator becomes its stripped self, or no element at all when blank. */
  lemma SplitWithoutSeparatorElements(text: string, sep: string, bot: ChatSender)
    requires sep != [] && !Contains(text, sep)
    ensures TextToImMessage(Some(sep), text, bot).elements
      == if IsBlank(text) then [] else [TextElement(Strip(text))]
  {
    NonBlankPiecesWithoutSeparator(text, sep);
  }

  /** `AppendIMMessage.execute`: a new message with the base's sender and one more element at the end. */
  function AppendImMessage(base: ImMessage, element: MessageElement): (msg: ImMessage)
    ensures msg.sender == base.sender
    ensures |msg.elements| == |base.elements| + 1
    ensures msg.elements[..|base.elements|] == base.elements && msg.elements[|base.elements|] == element
  {
    ImMessage(base.sender, base.elements + [element])
  }

  /** Appending twice keeps both elements, in the order they were appended. */
  lemma AppendTwice(base: ImMessage, first: MessageElement, second: MessageElement)
    ensures AppendImMessage(AppendImMessage(base, first), second) == ImMessage(base.sender, base.elements + [first, second])
  {
    assert base.elements + [first] + [second] == base.elements + [first, second];
  }

  /** `IMMessageToText.execute`: the message's `content`, which is not part of this model. */
  function ImMessageToText(msg: ImMessage, view: MessageView): string {
    view.content(msg.elements)
  }
}
