/**
 * The `llm_response_to_text` block (`kirara_ai/workflow/implementations/blocks/llm/basic.py`):
 * the text of an LLM response, with images written as media tags.
 */
module LlmBlocks {
  import opened Wrappers
  import opened Text
  import opened Messages

  /** How one content part is written: text as it is, an image as a media tag, anything else not at all. */
  function PartText(part: ContentPart): string {
    match part
    case TextPart(text) => text
    case ImagePart(id) => "<media_msg id=" + id + " />"
    case OtherPart(_) => ""
  }

  /** The parts written one after another, left to right. */
  function Rendered(parts: seq<ContentPart>): string {
    if parts == [] then "" else Rendered(parts[..|parts| - 1]) + PartText(parts[|parts| - 1])
  }

  lemma InitOfAppend(a: seq<ContentPart>, b: seq<ContentPart>)
    requires b != []
    ensures (a + b)[..|a + b| - 1] == a + b[..|b| - 1]
  {
  }

  /** Writing a concatenation of parts is writing each half and concatenating. */
  lemma {:induction false} RenderedAppend(a: seq<ContentPart>, b: seq<ContentPart>)
    ensures Rendered(a + b) == Rendered(a) + Rendered(b)
    decreases |b|
  {
    if b == [] {
      assert a + b == a;
    } else {
      var init := b[..|b| - 1];
      var last := PartText(b[|b| - 1]);
      InitOfAppend(a, b);
      assert (a + b)[|a + b| - 1] == b[|b| - 1];
      assert Rendered(a + b) == Rendered(a + init) + last;
      RenderedAppend(a, init);
      assert Rendered(b) == Rendered(init) + last;
      Associative(Rendered(a), Rendered(init), last);
    }
  }

  /** A part of another kind leaves no trace wherever it stands. */
  lemma OtherPartsVanish(a: seq<ContentPart>, kind: string, b: seq<ContentPart>)
    ensures Rendered(a + [OtherPart(kind)] + b) == Rendered(a + b)
  {
    var other := [OtherPart(kind)];
    assert Rendered(other) == "" by {
      assert other[..0] == [];
    }
    RenderedAppend(a, other);
    assert Rendered(a + other) == Rendered(a);
    RenderedAppend(a + other, b);
    RenderedAppend(a, b);
  }

  /** `LLMResponseToText.execute`: "" without a message, else its parts written in order. */
  method LlmResponseToText(response: LlmResponse) returns (content: string)
    ensures response.message.None? ==> content == ""
    ensures response.message.Some? ==> content == Rendered(response.message.value.content)
  {
    content := "";
    if response.message.Some? {
      var parts := response.message.value.content;
      var i := 0;
      while i < |parts|
        invariant 0 <= i <= |parts|
        invariant content == Rendered(parts[..i])
      {
        match parts[i] {
          case TextPart(text) =>
            content := content + text;
          case ImagePart(id) =>
            content := content + ("<media_msg id=" + id + " />");
          case OtherPart(_) =>
        }
        assert parts[..i + 1][..i] == parts[..i];
        i := i + 1;
      }
      assert parts[..i] == parts;
    }
  }
}
