/**
 * The LLM chat blocks (`kirara_ai/workflow/implementations/blocks/llm/chat.py`):
 * placeholder substitution and assembly of the chat record (`ChatMessageConstructor`), the
 * conversion of a response into an IM message (`ChatResponseConverter`) and the bounded
 * tool-calling loop (`ChatCompletionWithTools`).
 *
 * The clock, the workflow executor's variables, the LLM and the tools are parameters: the
 * current time is the text `now`, variables are a map with an attribute-lookup function, and the
 * LLM and each tool are functions from their request to their answer.
 */
module Chat {
  import opened Wrappers
  import opened Text
  import opened Messages

  // ---------------------------------------------------------------------------
  // substitute_variables: re.sub(r"\{([^}]+)\}", replace_var, text)
  // ---------------------------------------------------------------------------

  /**
   * What `replace_var` can see of the workflow executor: `values` is the map `get_variable(name,
   * default)` reads, and `getAttr(v, a)` is Python's `hasattr`/`getattr` on a value that is not a
   * dict, `None` when the value has no attribute `a` or reading it raises (the `except Exception`
   * branch). It covers built-in values too: `str.upper` or `int.real` are attributes.
   */
  datatype Variables = Variables(values: map<string, PyValue>, getAttr: (PyValue, string) -> Option<PyValue>)

  /** The first `'}'` at or after `from`, or `|s|` when there is none. */
  function CloseBrace(s: string, from: nat): (j: nat)
    requires from <= |s|
    ensures from <= j <= |s|
    ensures j < |s| ==> s[j] == '}'
    decreases |s| - from
  {
    if from == |s| || s[from] == '}' then from else CloseBrace(s, from + 1)
  }

  /** No `'}'` comes before the one `CloseBrace` finds: the match ends at the first one. */
  lemma {:induction false} CloseBraceFirst(s: string, from: nat, k: nat)
    requires from <= k < |s| && k < CloseBrace(s, from)
    ensures s[k] != '}'
    decreases |s| - from
  {
    if k > from {
      CloseBraceFirst(s, from + 1, k);
    }
  }

  /**
   * The pattern `\{([^}]+)\}` matches at `i`: a `'{'`, one or more characters other than `'}'`
   * (a `'{'` among them), then a `'}'`.
   */
  predicate PlaceholderAt(s: string, i: nat) {
    i + 1 < |s| && s[i] == '{' && i + 1 < CloseBrace(s, i + 1) < |s|
  }

  /** The text between the braces of the placeholder at `i`: the match's group 1. */
  function PlaceholderPath(s: string, i: nat): string
    requires PlaceholderAt(s, i)
  {
    s[i + 1..CloseBrace(s, i + 1)]
  }

  /**
   * The walk of `replace_var` along the segments after the variable name: a dict is read with
   * `get(attr, placeholder)`, any other value with `getattr`; `None` is a value without the
   * attribute, for which the whole placeholder is kept.
   */
  function ResolvePath(value: PyValue, path: seq<string>, placeholder: string,
                       getAttr: (PyValue, string) -> Option<PyValue>): Option<PyValue>
    decreases |path|
  {
    if path == [] then Some(value)
    else
      match value
      case PyDict(entries, _) =>
        ResolvePath(if path[0] in entries then entries[path[0]] else PyStr(placeholder), path[1..], placeholder, getAttr)
      case _ =>
        match getAttr(value, path[0])
        case None => None
        case Some(next) => ResolvePath(next, path[1..], placeholder, getAttr)
  }

  /** What `replace_var` returns for a placeholder whose group 1 is `path`. */
  function VarReplacement(path: string, vars: Variables): string {
    var placeholder := "{" + path + "}";
    var segments := Split(path, ".");
    var start := if segments[0] in vars.values then vars.values[segments[0]] else PyStr(placeholder);
    match ResolvePath(start, segments[1..], placeholder, vars.getAttr)
    case None => placeholder
    case Some(v) => Str(v)
  }

  /** `re.sub` from index `i` on: each match is replaced, every other character is kept. */
  function SubstituteFrom(s: string, i: nat, vars: Variables): string
    requires i <= |s|
    decreases |s| - i
  {
    if i == |s| then ""
    else if PlaceholderAt(s, i) then
      VarReplacement(PlaceholderPath(s, i), vars) + SubstituteFrom(s, CloseBrace(s, i + 1) + 1, vars)
    else [s[i]] + SubstituteFrom(s, i + 1, vars)
  }

  /** `substitute_variables`: every placeholder match rewritten by `replace_var`, left to right. */
  function SubstituteVariables(s: string, vars: Variables): string {
    SubstituteFrom(s, 0, vars)
  }

  /** `replace_var`: looks the variable up, then walks the path one segment at a time. */
  method ReplaceVar(path: string, vars: Variables) returns (r: string)
    ensures r == VarReplacement(path, vars)
  {
    var placeholder := "{" + path + "}";
    var segments := Split(path, ".");
    var value := if segments[0] in vars.values then vars.values[segments[0]] else PyStr(placeholder);
    ghost var start := value;
    var i := 1;
    while i < |segments|
      invariant 1 <= i <= |segments|
      invariant ResolvePath(value, segments[i..], placeholder, vars.getAttr)
             == ResolvePath(start, segments[1..], placeholder, vars.getAttr)
      decreases |segments| - i
    {
      assert segments[i..][1..] == segments[i + 1..];
      var attr := segments[i];
      match value {
        case PyDict(entries, _) =>
          value := if attr in entries then entries[attr] else PyStr(placeholder);
        case _ =>
          var next := vars.getAttr(value, attr);
          if next.None? {
            return placeholder;
          }
          value := next.value;
      }
      i := i + 1;
    }
    assert segments[i..] == [];
    r := Str(value);
  }

  /** One step of `re.sub`: a match at `i` is replaced and skipped, any other character kept. */
  lemma SubstituteStep(s: string, i: nat, vars: Variables)
    requires i < |s|
    ensures PlaceholderAt(s, i) ==>
      SubstituteFrom(s, i, vars) == VarReplacement(PlaceholderPath(s, i), vars) + SubstituteFrom(s, CloseBrace(s, i + 1) + 1, vars)
    ensures !PlaceholderAt(s, i) ==> SubstituteFrom(s, i, vars) == [s[i]] + SubstituteFrom(s, i + 1, vars)
  {
  }

  /**
   * `replace_var` keeps the placeholder for `path`: its variable is undefined, so the walk
   * starts at the placeholder text itself, and that text has no attribute named by the second
   * segment (when there is one).
   */
  predicate Unresolved(path: string, vars: Variables) {
    var segments := Split(path, ".");
    segments[0] !in vars.values
    && (|segments| > 1 ==> vars.getAttr(PyStr("{" + path + "}"), segments[1]).None?)
  }

  /** A placeholder whose variable is undefined, and whose text lacks the next attribute, is kept. */
  lemma UndefinedVariableKept(path: string, vars: Variables)
    requires Unresolved(path, vars)
    ensures VarReplacement(path, vars) == "{" + path + "}"
  {
    var placeholder := "{" + path + "}";
    var segments := Split(path, ".");
    if |segments| > 1 {
      assert ResolvePath(PyStr(placeholder), segments[1..], placeholder, vars.getAttr) == None;
    } else {
      assert segments[1..] == [];
    }
  }

  /** The text from a `'{'` at `i` on is the braces with what lies between them, then the rest. */
  lemma BracedSlice(s: string, i: nat, close: nat)
    requires i < close < |s| && s[i] == '{' && s[close] == '}'
    ensures s[i..] == "{" + s[i + 1..close] + "}" + s[close + 1..]
  {
    assert s[i..] == [s[i]] + s[i + 1..close] + [s[close]] + s[close + 1..];
  }

  lemma ConsSlice(s: string, i: nat)
    requires i < |s|
    ensures s[i..] == [s[i]] + s[i + 1..]
  {
  }

  /** Where `re.sub` resumes after position `i`: past the placeholder there, or past the character. */
  function Resume(s: string, i: nat): (j: nat)
    requires i < |s|
    ensures i < j <= |s|
  {
    if PlaceholderAt(s, i) then CloseBrace(s, i + 1) + 1 else i + 1
  }

  /** An unresolved placeholder at `i` is reproduced verbatim, as is any other character. */
  lemma UndefinedKeptAt(s: string, i: nat, vars: Variables)
    requires i < |s|
    requires PlaceholderAt(s, i) ==> Unresolved(PlaceholderPath(s, i), vars)
    requires SubstituteFrom(s, Resume(s, i), vars) == s[Resume(s, i)..]
    ensures SubstituteFrom(s, i, vars) == s[i..]
  {
    SubstituteStep(s, i, vars);
    if PlaceholderAt(s, i) {
      UndefinedVariableKept(PlaceholderPath(s, i), vars);
      BracedSlice(s, i, CloseBrace(s, i + 1));
    } else {
      ConsSlice(s, i);
    }
  }

  /** From `i` on, a text whose placeholders are all unresolved is reproduced verbatim. */
  lemma {:induction false} UndefinedVariablesKeptFrom(s: string, i: nat, vars: Variables)
    requires i <= |s|
    requires forall k :: PlaceholderAt(s, k) ==> Unresolved(PlaceholderPath(s, k), vars)
    ensures SubstituteFrom(s, i, vars) == s[i..]
    decreases |s| - i
  {
    if i < |s| {
      UndefinedVariablesKeptFrom(s, Resume(s, i), vars);
      UndefinedKeptAt(s, i, vars);
    }
  }

  /** Placeholders that `replace_var` cannot resolve stay in the text verbatim; text without any is unchanged. */
  lemma UndefinedVariablesKept(s: string, vars: Variables)
    requires forall k :: PlaceholderAt(s, k) ==> Unresolved(PlaceholderPath(s, k), vars)
    ensures SubstituteVariables(s, vars) == s
  {
    UndefinedVariablesKeptFrom(s, 0, vars);
  }

  /** A path `name.key` with no dot in either part splits into those two segments. */
  lemma TwoSegments(name: string, key: string)
    requires '.' !in name && '.' !in key
    ensures Split(name + "." + key, ".") == [name, key]
  {
    var path := name + "." + key;
    var k := |name|;
    assert OccursAt(path, ".", k);
    assert forall j :: 0 <= j < k ==> !OccursAt(path, ".", j) by {
      forall j | 0 <= j < k ensures !OccursAt(path, ".", j) {
        assert path[j] == name[j];
      }
    }
    assert Find(path, ".") == Some(k);
    assert path[..k] == name && path[k + 1..] == key;
    forall j | 0 <= j < |key| ensures !OccursAt(key, ".", j) {
      assert key[j..j + 1] == [key[j]];
    }
    SplitWithoutSeparator(key, ".");
    assert Split(path, ".") == [path[..k]] + Split(path[k + 1..], ".");
  }

  /** A key read from a dict variable is printed with `str`; a missing key keeps the placeholder. */
  lemma DictPathResolves(name: string, key: string, entries: map<string, PyValue>, repr: string, vars: Variables)
    requires '.' !in name && '.' !in key
    requires name in vars.values && vars.values[name] == PyDict(entries, repr)
    ensures key in entries ==> VarReplacement(name + "." + key, vars) == Str(entries[key])
    ensures key !in entries ==> VarReplacement(name + "." + key, vars) == "{" + name + "." + key + "}"
  {
    var path := name + "." + key;
    var placeholder := "{" + path + "}";
    assert placeholder == "{" + name + "." + key + "}";
    TwoSegments(name, key);
    assert Split(path, ".")[0] == name && Split(path, ".")[1..] == [key];
    assert ResolvePath(PyDict(entries, repr), [key], placeholder, vars.getAttr)
        == ResolvePath(if key in entries then entries[key] else PyStr(placeholder), [], placeholder, vars.getAttr);
  }

  /** An attribute of any other value is read with `getattr`; a missing one keeps the placeholder. */
  lemma AttributePathResolves(name: string, key: string, vars: Variables)
    requires '.' !in name && '.' !in key
    requires name in vars.values && !vars.values[name].PyDict?
    ensures vars.getAttr(vars.values[name], key).Some? ==>
      VarReplacement(name + "." + key, vars) == Str(vars.getAttr(vars.values[name], key).value)
    ensures vars.getAttr(vars.values[name], key).None? ==>
      VarReplacement(name + "." + key, vars) == "{" + name + "." + key + "}"
  {
    var path := name + "." + key;
    var placeholder := "{" + path + "}";
    assert placeholder == "{" + name + "." + key + "}";
    var start := vars.values[name];
    TwoSegments(name, key);
    assert Split(path, ".")[0] == name && Split(path, ".")[1..] == [key];
    match vars.getAttr(start, key)
    case None =>
      assert ResolvePath(start, [key], placeholder, vars.getAttr) == None;
    case Some(next) =>
      assert ResolvePath(start, [key], placeholder, vars.getAttr) == ResolvePath(next, [], placeholder, vars.getAttr);
  }

  /**
   * An undefined variable starts the walk at the placeholder text, a `str`: an attribute of that
   * string (`{name.upper}`) is what gets printed.
   */
  lemma UndefinedNameAttribute(name: string, key: string, vars: Variables)
    requires '.' !in name && '.' !in key && name !in vars.values
    ensures var placeholder := "{" + name + "." + key + "}";
      vars.getAttr(PyStr(placeholder), key).Some? ==>
        VarReplacement(name + "." + key, vars) == Str(vars.getAttr(PyStr(placeholder), key).value)
  {
    var path := name + "." + key;
    var placeholder := "{" + path + "}";
    assert placeholder == "{" + name + "." + key + "}";
    TwoSegments(name, key);
    assert Split(path, ".")[0] == name && Split(path, ".")[1..] == [key];
    var next := vars.getAttr(PyStr(placeholder), key);
    if next.Some? {
      assert ResolvePath(PyStr(placeholder), [key], placeholder, vars.getAttr)
          == ResolvePath(next.value, [], placeholder, vars.getAttr);
    }
  }

  // ---------------------------------------------------------------------------
  // ChatMessageConstructor.execute
  // ---------------------------------------------------------------------------

  /** One item of the `memory_content` list. */
  datatype MemoryItem = StrItem(s: string) | LlmItem(msg: LlmMessage) | ImItem(im: ImMessage)

  /** `memory_content`: a list, or anything else (`None` included). */
  datatype MemoryContent = MemoryList(items: seq<MemoryItem>) | NotAList

  predicate AllStrings(items: seq<MemoryItem>) {
    forall i :: 0 <= i < |items| ==> items[i].StrItem?
  }

  predicate AllLlmMessages(items: seq<MemoryItem>) {
    forall i :: 0 <= i < |items| ==> items[i].LlmItem?
  }

  function Strings(items: seq<MemoryItem>): (r: seq<string>)
    requires AllStrings(items)
    ensures |r| == |items| && forall i :: 0 <= i < |items| ==> r[i] == items[i].s
  {
    if items == [] then [] else [items[0].s] + Strings(items[1..])
  }

  function LlmMessagesOf(items: seq<MemoryItem>): (r: seq<LlmMessage>)
    requires AllLlmMessages(items)
    ensures |r| == |items| && forall i :: 0 <= i < |items| ==> r[i] == items[i].msg
  {
    if items == [] then [] else [items[0].msg] + LlmMessagesOf(items[1..])
  }

  /**
   * The fixed replacements, in the order they are applied: date and time, the user's message,
   * name and id, and the memory joined with newlines when it is a list of strings.
   */
  function FixedReplacements(now: string, userMsg: ImMessage, memory: MemoryContent, view: MessageView): (r: seq<(string, string)>)
    ensures forall i :: 0 <= i < |r| ==> |r[i].0| > 0 && r[i].0[0] == '{'
  {
    [("{current_date_time}", now),
     ("{user_msg}", view.content(userMsg.elements)),
     ("{user_name}", userMsg.sender.displayName),
     ("{user_id}", userMsg.sender.userId)]
    + if memory.MemoryList? && AllStrings(memory.items)
      then [("{memory_content}", Join(Strings(memory.items), "\n"))]
      else []
  }

  /** `text.replace(old, new)` for each pair, in order. */
  function ApplyReplacements(text: string, pairs: seq<(string, string)>): string
    decreases |pairs|
  {
    if pairs == [] then text else ApplyReplacements(Replace(text, pairs[0].0, pairs[0].1), pairs[1..])
  }

  /** The memory messages placed between the system and the user message. */
  function MemoryMessages(memory: MemoryContent): seq<LlmMessage> {
    if memory.MemoryList? && AllLlmMessages(memory.items) then LlmMessagesOf(memory.items) else []
  }

  /** The prompt a format becomes: fixed replacements first, then variable substitution. */
  function Prompt(format: string, pairs: seq<(string, string)>, vars: Variables): string {
    SubstituteVariables(ApplyReplacements(format, pairs), vars)
  }

  /**
   * `ChatMessageConstructor.execute`: a system message with the substituted system prompt, then
   * the memory when it is a list of chat messages, then a user message holding the substituted
   * user prompt followed by one image part per image of the user's message.
   */
  method ConstructChatMessages(userMsg: ImMessage, memory: MemoryContent, systemPromptFormat: string,
                               userPromptFormat: string, now: string, vars: Variables, view: MessageView)
    returns (llmMsg: seq<LlmMessage>)
    ensures var pairs := FixedReplacements(now, userMsg, memory, view);
            var images := view.imageIds(userMsg.elements);
            var middle := MemoryMessages(memory);
      && |llmMsg| == |middle| + 2
      && llmMsg[0] == LlmMessage("system", [TextPart(Prompt(systemPromptFormat, pairs, vars))], [])
      && llmMsg[1..|llmMsg| - 1] == middle
      && llmMsg[|llmMsg| - 1].role == "user" && llmMsg[|llmMsg| - 1].toolCalls == []
      && |llmMsg[|llmMsg| - 1].content| == |images| + 1
      && llmMsg[|llmMsg| - 1].content[0] == TextPart(Prompt(userPromptFormat, pairs, vars))
      && forall k :: 0 <= k < |images| ==> llmMsg[|llmMsg| - 1].content[k + 1] == ImagePart(images[k])
  {
    var pairs := FixedReplacements(now, userMsg, memory, view);
    var systemFormat, userFormat := systemPromptFormat, userPromptFormat;
    for i := 0 to |pairs|
      invariant ApplyReplacements(systemFormat, pairs[i..]) == ApplyReplacements(systemPromptFormat, pairs)
      invariant ApplyReplacements(userFormat, pairs[i..]) == ApplyReplacements(userPromptFormat, pairs)
    {
      assert pairs[i..][1..] == pairs[i + 1..];
      systemFormat := Replace(systemFormat, pairs[i].0, pairs[i].1);
      userFormat := Replace(userFormat, pairs[i].0, pairs[i].1);
    }
    assert pairs[|pairs|..] == [];

    var systemPrompt := SubstituteVariables(systemFormat, vars);
    var userPrompt := SubstituteVariables(userFormat, vars);

    var images := view.imageIds(userMsg.elements);
    var content := [TextPart(userPrompt)];
    for k := 0 to |images|
      invariant |content| == k + 1 && content[0] == TextPart(userPrompt)
      invariant forall j :: 0 <= j < k ==> content[j + 1] == ImagePart(images[j])
    {
      content := content + [ImagePart(images[k])];
    }

    llmMsg := [LlmMessage("system", [TextPart(systemPrompt)], [])];
    if memory.MemoryList? && AllLlmMessages(memory.items) {
      llmMsg := llmMsg + LlmMessagesOf(memory.items);
    }
    llmMsg := llmMsg + [LlmMessage("user", content, [])];
  }

  /** A format without `'{'` reaches the LLM exactly as written. */
  lemma {:induction false} PlainFormatUnchanged(format: string, pairs: seq<(string, string)>, vars: Variables)
    requires '{' !in format
    requires forall i :: 0 <= i < |pairs| ==> |pairs[i].0| > 0 && pairs[i].0[0] == '{'
    ensures Prompt(format, pairs, vars) == format
    decreases |pairs|
  {
    if pairs != [] {
      assert !Contains(format, pairs[0].0);
      ReplaceAbsent(format, pairs[0].0, pairs[0].1);
      PlainFormatUnchanged(format, pairs[1..], vars);
    } else {
      assert forall k :: !PlaceholderAt(format, k);
      UndefinedVariablesKept(format, vars);
    }
  }

  // ---------------------------------------------------------------------------
  // ChatResponseConverter.execute
  // ---------------------------------------------------------------------------

  /** The IM elements one content part becomes. */
  function PartElements(part: ContentPart): seq<MessageElement> {
    match part
    case TextPart(text) => TextElements(NonBlankPieces(text, "<break>"))
    case ImagePart(id) => [ImageElement(id)]
    case OtherPart(_) => []
  }

  /** The elements of all parts, in order. */
  function ConvertedElements(parts: seq<ContentPart>): seq<MessageElement> {
    if parts == [] then [] else PartElements(parts[0]) + ConvertedElements(parts[1..])
  }

  /** The elements of one part: the non-blank `<break>`-separated pieces of a text, or the image. */
  method PartElementsOf(part: ContentPart) returns (elements: seq<MessageElement>)
    ensures elements == PartElements(part)
  {
    match part
    case TextPart(text) =>
      elements := BreakTextElements(text);
    case ImagePart(id) =>
      elements := [ImageElement(id)];
    case OtherPart(_) =>
      elements := [];
  }

  /** The text elements of a text part: its non-blank `<break>`-separated pieces, stripped. */
  method BreakTextElements(text: string) returns (elements: seq<MessageElement>)
    ensures elements == TextElements(NonBlankPieces(text, "<break>"))
  {
    var pieces := Split(text, "<break>");
    elements := PieceElements(pieces);
  }

  /** The loop over the pieces: each non-blank one, stripped, becomes a text element. */
  method PieceElements(pieces: seq<string>) returns (elements: seq<MessageElement>)
    ensures elements == TextElements(StrippedNonBlank(pieces))
  {
    elements := [];
    for j := 0 to |pieces|
      invariant elements + TextElements(StrippedNonBlank(pieces[j..])) == TextElements(StrippedNonBlank(pieces))
    {
      var piece := Strip(pieces[j]);
      var step := if piece != "" then [TextElement(piece)] else [];
      var later := TextElements(StrippedNonBlank(pieces[j + 1..]));
      PieceStep(pieces, j);
      Associative(elements, step, later);
      elements := elements + step;
    }
    assert pieces[|pieces|..] == [];
  }

  /** Consuming one piece: a non-blank one contributes its stripped text, a blank one nothing. */
  lemma PieceStep(pieces: seq<string>, j: nat)
    requires j < |pieces|
    ensures TextElements(StrippedNonBlank(pieces[j..]))
            == (if Strip(pieces[j]) != "" then [TextElement(Strip(pieces[j]))] else [])
               + TextElements(StrippedNonBlank(pieces[j + 1..]))
  {
    var piece := Strip(pieces[j]);
    var rest := StrippedNonBlank(pieces[j + 1..]);
    StrippedNonBlankStep(pieces, j);
    if piece != "" {
      TextElementsCons(piece, rest);
    } else {
      assert [] + TextElements(rest) == TextElements(rest);
    }
  }

  lemma StrippedNonBlankStep(pieces: seq<string>, j: nat)
    requires j < |pieces|
    ensures StrippedNonBlank(pieces[j..])
            == (if Strip(pieces[j]) != "" then [Strip(pieces[j])] else []) + StrippedNonBlank(pieces[j + 1..])
  {
    assert pieces[j..][1..] == pieces[j + 1..];
  }

  lemma TextElementsCons(text: string, rest: seq<string>)
    ensures TextElements([text] + rest) == [TextElement(text)] + TextElements(rest)
  {
    assert ([text] + rest)[1..] == rest;
  }

  /** `ChatResponseConverter.execute`; a response without a message raises. */
  method ConvertResponse(resp: LlmResponse, bot: ChatSender) returns (r: Result<ImMessage>)
    ensures resp.message.None? <==> r.Failure?
    ensures r.Success? ==> r.value == ImMessage(bot, ConvertedElements(resp.message.value.content))
  {
    if resp.message.None? {
      return Failure("'NoneType' object has no attribute 'content'");
    }
    var parts := resp.message.value.content;
    var elements: seq<MessageElement> := [];
    for i := 0 to |parts|
      invariant elements + ConvertedElements(parts[i..]) == ConvertedElements(parts)
    {
      assert parts[i..][1..] == parts[i + 1..];
      var converted := PartElementsOf(parts[i]);
      elements := elements + converted;
    }
    assert parts[|parts|..] == [];
    r := Success(ImMessage(bot, elements));
  }

  /** The text elements one part becomes are non-blank and stripped. */
  lemma PartTextsStripped(part: ContentPart)
    ensures forall e :: e in PartElements(part) && e.TextElement? ==> e.text != "" && Strip(e.text) == e.text
  {
    if part.TextPart? {
      var texts := NonBlankPieces(part.text, "<break>");
      StrippedNonBlankClean(Split(part.text, "<break>"));
      forall e | e in TextElements(texts) && e.TextElement?
        ensures e.text != "" && Strip(e.text) == e.text
      {
        var i :| 0 <= i < |TextElements(texts)| && TextElements(texts)[i] == e;
        assert e.text == texts[i] && texts[i] in texts;
      }
    }
  }

  /** Every converted text element is non-blank and stripped. */
  lemma {:induction false} ConvertedTextsStripped(parts: seq<ContentPart>)
    ensures forall e :: e in ConvertedElements(parts) && e.TextElement? ==> e.text != "" && Strip(e.text) == e.text
  {
    if parts != [] {
      ConvertedTextsStripped(parts[1..]);
      PartTextsStripped(parts[0]);
    }
  }

  /** The media ids of the images among some elements, in order. */
  function ElementImageIds(elements: seq<MessageElement>): seq<string> {
    if elements == [] then []
    else (if elements[0].ImageElement? then [elements[0].mediaId] else []) + ElementImageIds(elements[1..])
  }

  /** The media ids of the image parts, in order. */
  function PartImageIds(parts: seq<ContentPart>): seq<string> {
    if parts == [] then []
    else (if parts[0].ImagePart? then [parts[0].mediaId] else []) + PartImageIds(parts[1..])
  }

  lemma {:induction false} ElementImageIdsAppend(a: seq<MessageElement>, b: seq<MessageElement>)
    ensures ElementImageIds(a + b) == ElementImageIds(a) + ElementImageIds(b)
  {
    if a == [] {
      assert a + b == b;
    } else {
      ElementImageIdsAppend(a[1..], b);
      assert (a + b)[0] == a[0] && (a + b)[1..] == a[1..] + b;
    }
  }

  lemma {:induction false} TextElementsHaveNoImages(texts: seq<string>)
    ensures ElementImageIds(TextElements(texts)) == []
  {
    if texts != [] {
      TextElementsHaveNoImages(texts[1..]);
      assert TextElements(texts)[1..] == TextElements(texts[1..]);
    }
  }

  /** Each image part becomes one image element, and images keep their order. */
  lemma {:induction false} ConvertedImagesInOrder(parts: seq<ContentPart>)
    ensures ElementImageIds(ConvertedElements(parts)) == PartImageIds(parts)
  {
    if parts != [] {
      ConvertedImagesInOrder(parts[1..]);
      ElementImageIdsAppend(PartElements(parts[0]), ConvertedElements(parts[1..]));
      match parts[0]
      case TextPart(text) => TextElementsHaveNoImages(NonBlankPieces(text, "<break>"));
      case ImagePart(id) =>
      case OtherPart(_) =>
    }
  }

  // ---------------------------------------------------------------------------
  // ChatCompletionWithTools.execute
  // ---------------------------------------------------------------------------

  /** A tool offered to the model; `invokeFunc` is the `invoke` parameter of the loop. */
  datatype Tool = Tool(name: string, description: string)

  /** `LLMChatRequest`: `tools` and `tool_choice` are left unset (`None`) unless given. */
  datatype ChatRequest = ChatRequest(messages: seq<LlmMessage>, model: string, tools: Option<seq<Tool>>, toolChoice: Option<string>)

  /** The two outputs of the block. */
  datatype ToolLoopOutput = ToolLoopOutput(resp: LlmResponse, iterationMsgs: seq<LlmMessage>)

  /** The exceptions `ChatCompletionWithTools.execute` raises, by cause. */
  datatype ToolLoopError =
    | MissingModelName      // ValueError: no model name configured
    | ModelNotFound         // ValueError: `get_llm` found no model of that name
    | MissingMessage        // AttributeError: a response without a message
    | NeverRan              // UnboundLocalError: `max_iterations <= 0`, so `response` is unbound

  /** The text of each exception. */
  function ErrorText(e: ToolLoopError, modelName: string): string {
    match e
    case MissingModelName => "A model supporting function calling must be specified"
    case ModelNotFound => "LLM " + modelName + " not found, check model name"
    case MissingMessage => "'NoneType' object has no attribute 'tool_calls'"
    case NeverRan => "cannot access local variable 'response' where it is not associated with a value"
  }

  /** How a run of the loop ended. */
  datatype ToolOutcome = Finished(output: ToolLoopOutput) | Raised(error: ToolLoopError)

  /** What a run of the loop produced, and the chat requests it made, in order. */
  datatype ToolRun = ToolRun(result: ToolOutcome, requests: seq<ChatRequest>)

  /** `{t.name: t for t in tools}.get(name)`: the last tool with that name. */
  function ToolNamed(tools: seq<Tool>, name: string): Option<Tool> {
    if tools == [] then None
    else if tools[|tools| - 1].name == name then Some(tools[|tools| - 1])
    else ToolNamed(tools[..|tools| - 1], name)
  }

  /**
   * The tool found is the last one with the name asked for; there is none exactly when no tool
   * has that name.
   */
  lemma {:induction false} ToolNamedIsLast(tools: seq<Tool>, name: string)
    ensures ToolNamed(tools, name).None? <==> forall i :: 0 <= i < |tools| ==> tools[i].name != name
    ensures ToolNamed(tools, name).Some? ==>
      exists i :: 0 <= i < |tools| && tools[i] == ToolNamed(tools, name).value && tools[i].name == name
        && forall j :: i < j < |tools| ==> tools[j].name != name
  {
    if tools != [] && tools[|tools| - 1].name != name {
      var init := tools[..|tools| - 1];
      ToolNamedIsLast(init, name);
      if ToolNamed(init, name).Some? {
        var i :| 0 <= i < |init| && init[i] == ToolNamed(init, name).value && init[i].name == name
          && forall j :: i < j < |init| ==> init[j].name != name;
        assert tools[i] == init[i];
      }
    }
  }

  /** One tool message per call whose function name is a known tool, in call order. */
  function ToolMessages(calls: seq<ToolCall>, tools: seq<Tool>, invoke: (Tool, ToolCall) -> ContentPart): (r: seq<LlmMessage>)
    ensures |r| <= |calls|
  {
    if calls == [] then []
    else
      var rest := ToolMessages(calls[1..], tools, invoke);
      match ToolNamed(tools, calls[0].functionName)
      case None => rest
      case Some(tool) => [LlmMessage("tool", [invoke(tool, calls[0])], [])] + rest
  }

  /** The message a call adds: one tool message when its function name is a known tool, else none. */
  function CallMessage(call: ToolCall, tools: seq<Tool>, invoke: (Tool, ToolCall) -> ContentPart): seq<LlmMessage> {
    match ToolNamed(tools, call.functionName)
    case None => []
    case Some(tool) => [LlmMessage("tool", [invoke(tool, call)], [])]
  }

  /**
   * One more call adds one more message at the end, exactly when its function name is a known
   * tool: that message is the tool's result for the call.
   */
  lemma {:induction false} ToolMessagesAppend(calls: seq<ToolCall>, call: ToolCall, tools: seq<Tool>,
                                              invoke: (Tool, ToolCall) -> ContentPart)
    ensures ToolMessages(calls + [call], tools, invoke) == ToolMessages(calls, tools, invoke) + CallMessage(call, tools, invoke)
    ensures |ToolMessages(calls + [call], tools, invoke)| ==
      |ToolMessages(calls, tools, invoke)| + (if ToolNamed(tools, call.functionName).Some? then 1 else 0)
    decreases |calls|
  {
    if calls == [] {
      assert (calls + [call])[1..] == [];
    } else {
      assert (calls + [call])[0] == calls[0];
      assert (calls + [call])[1..] == calls[1..] + [call];
      ToolMessagesAppend(calls[1..], call, tools, invoke);
    }
  }

  /**
   * When every call names a known tool there is one message per call, the `i`-th holding the
   * result of the `i`-th call; when none does there is none.
   */
  lemma {:induction false} ToolMessagesPerCall(calls: seq<ToolCall>, tools: seq<Tool>, invoke: (Tool, ToolCall) -> ContentPart)
    ensures (forall i :: 0 <= i < |calls| ==> ToolNamed(tools, calls[i].functionName).Some?) ==>
      |ToolMessages(calls, tools, invoke)| == |calls|
      && forall i :: 0 <= i < |calls| ==>
        ToolMessages(calls, tools, invoke)[i] ==
          LlmMessage("tool", [invoke(ToolNamed(tools, calls[i].functionName).value, calls[i])], [])
    ensures (forall i :: 0 <= i < |calls| ==> ToolNamed(tools, calls[i].functionName).None?) ==>
      ToolMessages(calls, tools, invoke) == []
    decreases |calls|
  {
    if calls != [] {
      ToolMessagesPerCall(calls[1..], tools, invoke);
      var rest := ToolMessages(calls[1..], tools, invoke);
      if forall i :: 0 <= i < |calls| ==> ToolNamed(tools, calls[i].functionName).Some? {
        assert forall i :: 0 <= i < |calls[1..]| ==> ToolNamed(tools, calls[1..][i].functionName).Some? by {
          forall i | 0 <= i < |calls[1..]| ensures ToolNamed(tools, calls[1..][i].functionName).Some? {
            assert calls[1..][i] == calls[i + 1];
          }
        }
        forall i | 1 <= i < |calls|
          ensures ToolMessages(calls, tools, invoke)[i] ==
            LlmMessage("tool", [invoke(ToolNamed(tools, calls[i].functionName).value, calls[i])], [])
        {
          assert calls[1..][i - 1] == calls[i];
        }
      }
      if forall i :: 0 <= i < |calls| ==> ToolNamed(tools, calls[i].functionName).None? {
        assert forall i :: 0 <= i < |calls[1..]| ==> ToolNamed(tools, calls[1..][i].functionName).None? by {
          forall i | 0 <= i < |calls[1..]| ensures ToolNamed(tools, calls[1..][i].functionName).None? {
            assert calls[1..][i] == calls[i + 1];
          }
        }
      }
    }
  }

  /** The messages one tool-calling round appends: the assistant message, then the tool results. */
  function RoundMessages(message: LlmMessage, tools: seq<Tool>, invoke: (Tool, ToolCall) -> ContentPart): seq<LlmMessage> {
    [message] + ToolMessages(message.toolCalls, tools, invoke)
  }

  /** The response asked for tools: it has a message, with at least one tool call. */
  predicate CalledTools(resp: LlmResponse) {
    resp.message.Some? && resp.message.value.toolCalls != []
  }

  /**
   * The configured tool loop: the block's `model_name` and `max_iterations`, the tool list, the
   * model `get_llm` found and the tools' `invokeFunc`.
   */
  datatype ToolLoop = ToolLoop(modelName: string, maxIterations: int, tools: seq<Tool>,
                               chat: ChatRequest -> LlmResponse, invoke: (Tool, ToolCall) -> ContentPart)
  {
    /**
     * The request iteration `k` (from 0) sends with the conversation `messages`: the tools when
     * there are any, and `tool_choice = "none"` on the last permitted iteration only.
     */
    function RequestFor(messages: seq<LlmMessage>, k: nat): ChatRequest {
      ChatRequest(messages, modelName,
                  if tools != [] then Some(tools) else None,
                  if k == maxIterations - 1 then Some("none") else None)
    }

    /** The messages a response with tool calls adds to the conversation. */
    function Round(resp: LlmResponse): seq<LlmMessage>
      requires resp.message.Some?
    {
      RoundMessages(resp.message.value, tools, invoke)
    }

    /**
     * The loop from iteration `k` on, with the intermediate messages collected so far and the
     * last response received (`None` before the first): a request per iteration until a response
     * has no tool calls, has no message (the source raises), or the iterations run out.
     */
    function Run(msg: seq<LlmMessage>, k: nat, iterationMsgs: seq<LlmMessage>, last: Option<LlmResponse>): ToolRun
      decreases if k < maxIterations then maxIterations - k else 0
    {
      if k >= maxIterations then
        if last.None? then ToolRun(Raised(NeverRan), [])
        else ToolRun(Finished(ToolLoopOutput(last.value, iterationMsgs)), [])
      else
        var request := RequestFor(msg + iterationMsgs, k);
        var resp := chat(request);
        if resp.message.None? then
          ToolRun(Raised(MissingMessage), [request])
        else if resp.message.value.toolCalls == [] then
          ToolRun(Finished(ToolLoopOutput(resp, iterationMsgs)), [request])
        else
          var rest := Run(msg, k + 1, iterationMsgs + Round(resp), Some(resp));
          ToolRun(rest.result, [request] + rest.requests)
    }
  }

  /** One iteration whose response asks for tools: its request comes first, then the rest of the run. */
  lemma RunContinues(L: ToolLoop, msg: seq<LlmMessage>, k: nat, iterationMsgs: seq<LlmMessage>, last: Option<LlmResponse>)
    requires k < L.maxIterations && CalledTools(L.chat(L.RequestFor(msg + iterationMsgs, k)))
    ensures var resp := L.chat(L.RequestFor(msg + iterationMsgs, k));
      var rest := L.Run(msg, k + 1, iterationMsgs + L.Round(resp), Some(resp));
      L.Run(msg, k, iterationMsgs, last) == ToolRun(rest.result, [L.RequestFor(msg + iterationMsgs, k)] + rest.requests)
  {
  }

  /** A run that makes a request makes the request of iteration `k` first. */
  lemma RunFirst(L: ToolLoop, msg: seq<LlmMessage>, k: nat, iterationMsgs: seq<LlmMessage>, last: Option<LlmResponse>)
    requires 0 < |L.Run(msg, k, iterationMsgs, last).requests|
    ensures k < L.maxIterations
    ensures L.Run(msg, k, iterationMsgs, last).requests[0] == L.RequestFor(msg + iterationMsgs, k)
  {
  }

  /** A run whose first response asks for no tools makes no other request. */
  lemma RunStops(L: ToolLoop, msg: seq<LlmMessage>, k: nat, iterationMsgs: seq<LlmMessage>, last: Option<LlmResponse>)
    requires !CalledTools(L.chat(L.RequestFor(msg + iterationMsgs, k)))
    ensures |L.Run(msg, k, iterationMsgs, last).requests| <= 1
  {
  }

  /** From iteration `k` on, at most the remaining iterations are run. */
  lemma {:induction false} RunLength(L: ToolLoop, msg: seq<LlmMessage>, k: nat, iterationMsgs: seq<LlmMessage>, last: Option<LlmResponse>)
    ensures |L.Run(msg, k, iterationMsgs, last).requests| <= if k < L.maxIterations then L.maxIterations - k else 0
    decreases if k < L.maxIterations then L.maxIterations - k else 0
  {
    if k < L.maxIterations && CalledTools(L.chat(L.RequestFor(msg + iterationMsgs, k))) {
      var resp := L.chat(L.RequestFor(msg + iterationMsgs, k));
      RunContinues(L, msg, k, iterationMsgs, last);
      RunLength(L, msg, k + 1, iterationMsgs + L.Round(resp), Some(resp));
    }
  }

  /**
   * The `j`-th request of a run from iteration `k` is the request of iteration `k + j`; the first
   * one carries `msg` and the messages collected so far, and each later one carries the one before
   * and the round of its response, which asked for tools.
   */
  lemma {:induction false} RunRequest(L: ToolLoop, msg: seq<LlmMessage>, k: nat, iterationMsgs: seq<LlmMessage>, last: Option<LlmResponse>, j: nat)
    requires j < |L.Run(msg, k, iterationMsgs, last).requests|
    ensures var requests := L.Run(msg, k, iterationMsgs, last).requests;
      && requests[j] == L.RequestFor(requests[j].messages, k + j)
      && (j == 0 ==> requests[j].messages == msg + iterationMsgs)
      && (j + 1 < |requests| ==>
            && CalledTools(L.chat(requests[j]))
            && requests[j + 1].messages == requests[j].messages + L.Round(L.chat(requests[j])))
    decreases j, if k < L.maxIterations then L.maxIterations - k else 0
  {
    var requests := L.Run(msg, k, iterationMsgs, last).requests;
    RunFirst(L, msg, k, iterationMsgs, last);
    var request := L.RequestFor(msg + iterationMsgs, k);
    var resp := L.chat(request);
    if CalledTools(resp) {
      RunContinues(L, msg, k, iterationMsgs, last);
      var next := iterationMsgs + L.Round(resp);
      var rest := L.Run(msg, k + 1, next, Some(resp)).requests;
      assert requests == [request] + rest;
      if j == 0 {
        if 0 < |rest| {
          RunFirst(L, msg, k + 1, next, Some(resp));
          assert msg + next == msg + iterationMsgs + L.Round(resp);
        }
      } else {
        RunRequest(L, msg, k + 1, next, Some(resp), j - 1);
        assert requests[j] == rest[j - 1];
        assert k + 1 + (j - 1) == k + j;
        if j + 1 < |requests| {
          assert requests[j + 1] == rest[j];
        }
      }
    } else {
      RunStops(L, msg, k, iterationMsgs, last);
    }
  }

  /**
   * A run from iteration `k` that returns, returns the response to its last request, which has a
   * message and asked for no tools unless the iterations ran out, with the intermediate messages
   * that extend `msg` to that request's conversation and, after tool calls, their round. A run
   * that makes no request returns the last response it was given.
   */
  lemma {:induction false} RunFinishes(L: ToolLoop, msg: seq<LlmMessage>, k: nat, iterationMsgs: seq<LlmMessage>, last: Option<LlmResponse>)
    ensures var run := L.Run(msg, k, iterationMsgs, last);
      var n := |run.requests|;
      run.result.Finished? ==>
        if n == 0 then last.Some? && run.result.output == ToolLoopOutput(last.value, iterationMsgs)
        else
          var resp := L.chat(run.requests[n - 1]);
          && run.result.output.resp == resp
          && resp.message.Some?
          && (CalledTools(resp) ==> k + n == L.maxIterations)
          && msg + run.result.output.iterationMsgs
             == run.requests[n - 1].messages + if CalledTools(resp) then L.Round(resp) else []
    decreases if k < L.maxIterations then L.maxIterations - k else 0
  {
    var request := L.RequestFor(msg + iterationMsgs, k);
    var resp := L.chat(request);
    if k < L.maxIterations && CalledTools(resp) {
      RunContinues(L, msg, k, iterationMsgs, last);
      var next := iterationMsgs + L.Round(resp);
      var run := L.Run(msg, k, iterationMsgs, last);
      var rest := L.Run(msg, k + 1, next, Some(resp));
      assert run.result == rest.result;
      assert run.requests == [request] + rest.requests;
      RunFinishes(L, msg, k + 1, next, Some(resp));
      if 0 < |rest.requests| {
        assert run.requests[|run.requests| - 1] == rest.requests[|rest.requests| - 1];
      } else {
        Associative(msg, iterationMsgs, L.Round(resp));
      }
    } else {
      RunFinishesHere(L, msg, k, iterationMsgs, last);
    }
  }

  /** `RunFinishes` for a run whose first iteration, if any, asks for no tools. */
  lemma RunFinishesHere(L: ToolLoop, msg: seq<LlmMessage>, k: nat, iterationMsgs: seq<LlmMessage>, last: Option<LlmResponse>)
    requires !(k < L.maxIterations && CalledTools(L.chat(L.RequestFor(msg + iterationMsgs, k))))
    ensures var run := L.Run(msg, k, iterationMsgs, last);
      var n := |run.requests|;
      run.result.Finished? ==>
        if n == 0 then last.Some? && run.result.output == ToolLoopOutput(last.value, iterationMsgs)
        else
          var resp := L.chat(run.requests[n - 1]);
          && run.result.output.resp == resp
          && resp.message.Some?
          && (CalledTools(resp) ==> k + n == L.maxIterations)
          && msg + run.result.output.iterationMsgs
             == run.requests[n - 1].messages + if CalledTools(resp) then L.Round(resp) else []
  {
    var request := L.RequestFor(msg + iterationMsgs, k);
    if k < L.maxIterations && L.chat(request).message.Some? {
      assert msg + iterationMsgs + [] == request.messages;
    }
  }

  /**
   * A run from iteration `k` raises only when it makes no request and was given no response, or
   * when the response to its last request has no message.
   */
  lemma {:induction false} RunRaises(L: ToolLoop, msg: seq<LlmMessage>, k: nat, iterationMsgs: seq<LlmMessage>, last: Option<LlmResponse>)
    ensures var run := L.Run(msg, k, iterationMsgs, last);
      var n := |run.requests|;
      run.result.Raised? ==>
        if n == 0 then run.result.error == NeverRan && last.None? && k >= L.maxIterations
        else run.result.error == MissingMessage && L.chat(run.requests[n - 1]).message.None?
    decreases if k < L.maxIterations then L.maxIterations - k else 0
  {
    if k < L.maxIterations && CalledTools(L.chat(L.RequestFor(msg + iterationMsgs, k))) {
      var resp := L.chat(L.RequestFor(msg + iterationMsgs, k));
      RunContinues(L, msg, k, iterationMsgs, last);
      RunRaises(L, msg, k + 1, iterationMsgs + L.Round(resp), Some(resp));
    }
  }

  /**
   * The whole run of `ChatCompletionWithTools`: at most `maxIterations` requests, the first with
   * `msg`, each later one extending the one before by a round of tool calls, `tool_choice` set on
   * the last permitted one only; it returns the final response with the messages collected, or
   * raises when the loop never ran or a response had no message.
   */
  lemma ToolLoopRun(L: ToolLoop, msg: seq<LlmMessage>)
    ensures var run := L.Run(msg, 0, [], None);
      var n := |run.requests|;
      && n <= (if L.maxIterations < 0 then 0 else L.maxIterations)
      && (n > 0 ==> run.requests[0].messages == msg)
      && (forall j :: 0 <= j < n ==> run.requests[j] == L.RequestFor(run.requests[j].messages, j))
      && (forall j :: 0 <= j && j + 1 < n ==>
            CalledTools(L.chat(run.requests[j]))
            && run.requests[j + 1].messages == run.requests[j].messages + L.Round(L.chat(run.requests[j])))
      && (n == 0 ==> run.result == Raised(NeverRan) && L.maxIterations <= 0)
      && (run.result.Raised? && n > 0 ==> run.result.error == MissingMessage && L.chat(run.requests[n - 1]).message.None?)
      && (run.result.Finished? ==>
            var resp := L.chat(run.requests[n - 1]);
            && run.result.output.resp == resp && resp.message.Some?
            && (CalledTools(resp) ==> n == L.maxIterations)
            && msg + run.result.output.iterationMsgs
               == run.requests[n - 1].messages + if CalledTools(resp) then L.Round(resp) else [])
  {
    var run := L.Run(msg, 0, [], None);
    RunLength(L, msg, 0, [], None);
    RunFinishes(L, msg, 0, [], None);
    RunRaises(L, msg, 0, [], None);
    forall j | 0 <= j < |run.requests|
      ensures run.requests[j] == L.RequestFor(run.requests[j].messages, j)
      ensures j == 0 ==> run.requests[j].messages == msg
    {
      RunRequest(L, msg, 0, [], None, j);
      assert msg + [] == msg;
    }
    forall j | 0 <= j && j + 1 < |run.requests|
      ensures CalledTools(L.chat(run.requests[j]))
      ensures run.requests[j + 1].messages == run.requests[j].messages + L.Round(L.chat(run.requests[j]))
    {
      RunRequest(L, msg, 0, [], None, j);
    }
  }

  /** The tool messages of one round: each call whose function name is a known tool is invoked. */
  method InvokeTools(calls: seq<ToolCall>, tools: seq<Tool>, invoke: (Tool, ToolCall) -> ContentPart)
    returns (msgs: seq<LlmMessage>)
    ensures msgs == ToolMessages(calls, tools, invoke)
  {
    msgs := [];
    for j := 0 to |calls|
      invariant msgs == ToolMessages(calls[..j], tools, invoke)
    {
      ToolMessagesAppend(calls[..j], calls[j], tools, invoke);
      assert calls[..j + 1] == calls[..j] + [calls[j]];
      var tool := ToolNamed(tools, calls[j].functionName);
      if tool.Some? {
        msgs := msgs + [LlmMessage("tool", [invoke(tool.value, calls[j])], [])];
      }
    }
    assert calls[..|calls|] == calls;
  }

  /** The `while` loop of `ChatCompletionWithTools.execute`. */
  method RunToolLoop(L: ToolLoop, msg: seq<LlmMessage>) returns (run: ToolRun)
    ensures run == L.Run(msg, 0, [], None)
  {
    var requests: seq<ChatRequest> := [];
    var iterationMsgs: seq<LlmMessage> := [];
    var iterCount := 0;
    var response: Option<LlmResponse> := None;
    while iterCount < L.maxIterations
      invariant 0 <= iterCount
      invariant L.Run(msg, iterCount, iterationMsgs, response).result == L.Run(msg, 0, [], None).result
      invariant requests + L.Run(msg, iterCount, iterationMsgs, response).requests == L.Run(msg, 0, [], None).requests
      decreases L.maxIterations - iterCount
    {
      var request := ChatRequest(msg + iterationMsgs, L.modelName, if L.tools != [] then Some(L.tools) else None,
                                 if iterCount == L.maxIterations - 1 then Some("none") else None);
      assert request == L.RequestFor(msg + iterationMsgs, iterCount);
      var resp := L.chat(request);
      ghost var rest := L.Run(msg, iterCount, iterationMsgs, response);
      if resp.message.None? {
        return ToolRun(Raised(MissingMessage), requests + [request]);
      }
      if resp.message.value.toolCalls == [] {
        return ToolRun(Finished(ToolLoopOutput(resp, iterationMsgs)), requests + [request]);
      }
      var toolMsgs := InvokeTools(resp.message.value.toolCalls, L.tools, L.invoke);
      var next := iterationMsgs + [resp.message.value] + toolMsgs;
      assert next == iterationMsgs + L.Round(resp);
      assert rest.requests == [request] + L.Run(msg, iterCount + 1, next, Some(resp)).requests;
      requests := requests + [request];
      iterationMsgs := next;
      iterCount := iterCount + 1;
      response := Some(resp);
    }
    run := L.Run(msg, iterCount, iterationMsgs, response);
    assert run.requests == [];
    assert requests + [] == requests;
    run := ToolRun(run.result, requests);
  }

  /**
   * `ChatCompletionWithTools.execute`. `llm` is the model `get_llm(model_name)` found, if any.
   * Without a model name or a model it raises before any chat call; otherwise it runs the loop.
   */
  method ChatWithTools(modelName: string, maxIterations: int, msg: seq<LlmMessage>, tools: seq<Tool>,
                       llm: Option<ChatRequest -> LlmResponse>, invoke: (Tool, ToolCall) -> ContentPart)
    returns (run: ToolRun)
    ensures modelName == "" ==> run == ToolRun(Raised(MissingModelName), [])
    ensures modelName != "" && llm.None? ==> run == ToolRun(Raised(ModelNotFound), [])
    ensures modelName != "" && llm.Some? ==> run == ToolLoop(modelName, maxIterations, tools, llm.value, invoke).Run(msg, 0, [], None)
  {
    if modelName == "" {
      return ToolRun(Raised(MissingModelName), []);
    }
    if llm.None? {
      return ToolRun(Raised(ModelNotFound), []);
    }
    run := RunToolLoop(ToolLoop(modelName, maxIterations, tools, llm.value, invoke), msg);
  }
}
