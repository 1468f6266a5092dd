/**
 * The text blocks of `kirara_ai/workflow/implementations/blocks/system/basic.py`:
 * `text_block`, `text_concat_block` and `text_replace_block`.
 */
module TextBlocks {
  import opened Text
  import opened Messages

  /** `TextBlock(text)`: a block configured with the text it outputs. */
  datatype TextBlock = TextBlock(text: string)
  {
    /** `execute`: the configured text, whatever the inputs of the workflow. */
    function Execute(): string {
      text
    }
  }

  /** `TextConcatBlock.execute`: `text1 + text2`. */
  function TextConcat(text1: string, text2: string): (r: string)
    ensures |r| == |text1| + |text2|
    ensures r[..|text1|] == text1 && r[|text1|..] == text2
  {
    text1 + text2
  }

  /** `TextReplaceBlock(variable).execute(text, new_text)`: `text.replace(variable, str(new_text))`. */
  function TextReplace(variable: string, text: string, newText: PyValue): string {
    Replace(text, variable, Str(newText))
  }

  /**
   * Occurrences are replaced left to right without overlapping: the result is the text split
   * on `variable` and joined with the new text.
   */
  lemma TextReplaceLeftToRight(variable: string, text: string, newText: PyValue)
    requires variable != []
    ensures TextReplace(variable, text, newText) == Join(Split(text, variable), Str(newText))
  {
    ReplaceIsJoinOfSplit(text, variable, Str(newText));
  }

  /** Text that does not mention `variable` passes through unchanged. */
  lemma TextReplaceAbsent(variable: string, text: string, newText: PyValue)
    requires !Contains(text, variable)
    ensures TextReplace(variable, text, newText) == text
  {
    ReplaceAbsent(text, variable, Str(newText));
  }

  /** Replacing `variable` by a string equal to it leaves the text unchanged. */
  lemma TextReplaceWithItself(variable: string, text: string)
    ensures TextReplace(variable, text, PyStr(variable)) == text
  {
    ReplaceWithItself(text, variable);
  }
}
