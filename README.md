# kirara_ai workflow core, modelled in Dafny

This project models the core of the kirara_ai workflow engine:

- **The block registry.** This is `BlockRegistry` and `extract_block_param` in
  `kirara_ai/workflow/core/block/registry.py`.
  - It is a table of block classes keyed by `"group:id"`, with localized names and a type system.
  - It derives a block's input, output and configuration descriptors by reflection.
- **The deterministic logic of the built-in blocks:**
  - LLM prompt assembly, response conversion and the bounded tool-calling loop (`llm/chat.py`);
  - the help text generator (`system/help.py`);
  - the dice command (`game/dice.py`);
  - the text/IM message blocks (`im/messages.py`);
  - the text blocks (`system/basic.py`);
  - LLM response rendering (`llm/basic.py`);
  - the chat memory blocks (`memory/chat_memory.py`).

The model takes the form of the source:

- Objects whose fields change in place are classes with `modifies` clauses. These are `BlockRegistry`, `BlockClass` (its `id` is stamped), `ChatMemoryQuery` and `ChatMemoryStore`.
- Loops become methods with loop invariants, each proved equal to a specification function. Examples are `replace_var`, `ChatMessageConstructor.execute`, the response converter, the tool loop, `_format_rule_group`, `GenerateHelp.execute`, `LLMResponseToText.execute` and `extract_block_info`.
- Expression-only code becomes functions. Properties of those functions are proved as lemmas.

Modules:

| module | contents |
|---|---|
| `Wrappers` | `Option`, `Result`, `Outcome` |
| `Text` | Python's `str.strip`, `str.split`, `str.join`, `str.replace`, ASCII `lower`/`upper`, string order and a stable sort, with their laws |
| `Numerals` | decimal digits, `int(...)` of a digit string and `str(n)` of a natural number |
| `Messages` | Python values, IM messages, LLM messages and responses |
| `Registry`, `Chat`, `Help`, `Dice`, `ImBlocks`, `TextBlocks`, `LlmBlocks`, `ChatMemory` | one per source file |

How outside collaborators are represented:

- **Reflection.** Python reflection is replaced by explicit values:
  - a parameter annotation is `Bare` or `Annotated(actual, metadata)`;
  - a block class carries its port tables and its constructor's parameter list.
- **`TypeSystem`.** This is the set of type names registered with it. Its queries are fields of a `TypeOracle` about which nothing is assumed.
- **Supplied as parameters:** the clock, the workflow variables, the LLM, the tools, the dice's random numbers and the message properties `IMMessage.content`/`images`.
- **Requests returned as data.** The memory manager and the scope, composer and decomposer registries are not called. The chat memory blocks return the request they would make to them.

## Model

| member | source | states |
|---|---|---|
| Registry.ExtractBlockParam | kirara_ai/workflow/core/block/registry.py:13-64 | The name is the parameter's and the options list is empty. Type, required and default are those `extract_type_info` gives for the annotation with every `Annotated` layer removed; an `Annotated` without args gives `Any`, required, `None`. `has_options` holds exactly when a provider is set. Without an outer `ParamMeta` the label is the parameter name, with no description and no options; with one, label, description and provider come from it. |
| Registry.MetadataTransparent | kirara_ai/workflow/core/block/registry.py:22-46 | Wrapping a type in `Annotated[T, ...]` with any metadata never changes the type, required-ness or default extracted for it. |
| Registry.InputDescriptor | kirara_ai/workflow/core/block/registry.py:143-153 | An input's descriptor is required exactly when the input is not nullable. Its type name is the one `extract_type_info` gives for the data type. Its default is the input's default, else `None`. |
| Registry.OutputDescriptor | kirara_ai/workflow/core/block/registry.py:156-164 | An output's descriptor carries the type name `extract_type_info` gives for its data type. |
| Registry.ParamNames | kirara_ai/workflow/core/block/registry.py:181 | The names of a parameter list, one per parameter, in order. |
| Registry.FullName | kirara_ai/workflow/core/block/registry.py:90 | The registry key always contains the `':'` between group and id. |
| Registry.UnregisteredName | kirara_ai/workflow/core/block/registry.py:128 | The made-up `"!!module.Name"` contains no `':'` when the module and class names have none, while every registry key does. |
| Registry.AppendListed | kirara_ai/workflow/core/block/registry.py:93 | Adding a new key at the end of the table lists its class last and leaves the earlier classes in place and in order. |
| Registry.AddKeepsTable | kirara_ai/workflow/core/block/registry.py:90-96 | Adding a new composite key, with an optional localized name stored only when non-empty, keeps the table invariant: keys distinct and in insertion order, all composite, and no empty localized name. |
| Registry.BlockRegistry.constructor | kirara_ai/workflow/core/block/registry.py:70-73 | A new registry has no blocks, no localized names and a fresh type system, and satisfies the table invariant. |
| Registry.BlockRegistry.Get | kirara_ai/workflow/core/block/registry.py:105-107 | `get` returns a class exactly when the key is registered, and then the class registered under it. |
| Registry.BlockRegistry.GetLocalizedName | kirara_ai/workflow/core/block/registry.py:109-111 | The stored, non-empty localized name when there is one, else the key itself. |
| Registry.BlockRegistry.GetAllTypes | kirara_ai/workflow/core/block/registry.py:130-132 | One class per registered key, in insertion order. |
| Registry.BlockRegistry.GetBuiltinParams | kirara_ai/workflow/core/block/registry.py:178-181 | The parameter names of the base `Block.__init__`, in order. |
| Registry.BlockRegistry.IsTypeCompatible | kirara_ai/workflow/core/block/registry.py:187-189 | The answer is the type system's verdict for the registry's current type system, so after `clear` it is the fresh one's. |
| Registry.BlockRegistry.GetTypeCompatibilityMap | kirara_ai/workflow/core/block/registry.py:183-185 | The map is the current type system's. |
| Registry.BlockRegistry.PortTypeNamesOf | kirara_ai/workflow/core/block/registry.py:98-103 | The two loops of `register` record exactly the type names of the class's inputs and outputs. |
| Registry.BlockRegistry.Register | kirara_ai/workflow/core/block/registry.py:75-103 | A taken key fails with `"Block {key} already registered"` and changes nothing: table, order, names, type system and the class's `id`. Otherwise the class becomes the last entry and `get(key)` returns it. `get_all_types` grows by exactly that class and `id` is the short block id. The localized name is stored only when non-empty. The ports' type names are added to the type system. The table invariant is kept. |
| Registry.BlockRegistry.Clear | kirara_ai/workflow/core/block/registry.py:113-116 | The table is emptied, so `get` returns nothing for every key, and a fresh type system is installed. The localized names are kept. |
| Registry.BlockRegistry.GetBlockTypeName | kirara_ai/workflow/core/block/registry.py:118-128 | The first key, in insertion order, whose class is the argument. The warning is raised exactly when no key maps to it, and then the result is `"!!module.Name"`, which is not a key when the module and class names contain no `':'`. |
| Registry.BlockRegistry.ExtractBlockInfo | kirara_ai/workflow/core/block/registry.py:134-176 | Inputs and outputs have exactly the class's port names, each with its descriptor. The configuration holds exactly the constructor parameters other than `self` and the builtin ones, each as `extract_block_param` gives it. The ports' type names are added to the type system, and the block table is untouched. |
| Registry.InputDescriptors | kirara_ai/workflow/core/block/registry.py:142-153 | The input loop: one descriptor per input name, and the set of their type names. |
| Registry.OutputDescriptors | kirara_ai/workflow/core/block/registry.py:155-164 | The output loop: one descriptor per output name, and the set of their type names. |
| Registry.ConfigDescriptors | kirara_ai/workflow/core/block/registry.py:166-174 | The parameter loop: every configurable parameter, and only those, is described by `extract_block_param`. |
| Chat.CloseBrace | kirara_ai/workflow/implementations/blocks/llm/chat.py:61 | The position where `[^}]+` stops: at or after the start, and at a `'}'` when inside the text. |
| Chat.CloseBraceFirst | kirara_ai/workflow/implementations/blocks/llm/chat.py:61 | No `'}'` occurs before that position. |
| Chat.SubstituteVariables | kirara_ai/workflow/implementations/blocks/llm/chat.py:42-61 | Definition, no contract: `re.sub` of every placeholder by `replace_var`, left to right. Its properties are the lemmas below. |
| Chat.ReplaceVar | kirara_ai/workflow/implementations/blocks/llm/chat.py:45-59 | The loop of `replace_var` computes the replacement of a placeholder. The variable defaults to the placeholder text. A dict is read with `get(attr, placeholder)`. Any other value, strings and numbers included, is read with `hasattr`/`getattr`, the attribute function supplied with the variables. A missing attribute, or one whose reading raises, keeps the whole placeholder. The result is `str` of the value. |
| Chat.SubstituteStep | kirara_ai/workflow/implementations/blocks/llm/chat.py:61 | `re.sub` replaces a match at the current position and resumes after its `'}'`. Any other character is kept as it is. |
| Chat.UndefinedVariableKept | kirara_ai/workflow/implementations/blocks/llm/chat.py:45-59 | A placeholder whose variable is not defined is replaced by itself when it is a bare name, or when the placeholder text, a `str`, has no attribute named by the second segment. |
| Chat.UndefinedKeptAt | kirara_ai/workflow/implementations/blocks/llm/chat.py:61 | One step of the argument below: the text from a position is unchanged if it is unchanged from where substitution resumes. |
| Chat.UndefinedVariablesKeptFrom | kirara_ai/workflow/implementations/blocks/llm/chat.py:61 | Substitution from any position leaves text unchanged when each of its placeholders names an undefined variable and the placeholder text has no attribute named by its second segment. |
| Chat.UndefinedVariablesKept | kirara_ai/workflow/implementations/blocks/llm/chat.py:61 | `substitute_variables` returns the text unchanged when each placeholder in it names an undefined variable and the placeholder text has no attribute named by its second segment. |
| Chat.TwoSegments | kirara_ai/workflow/implementations/blocks/llm/chat.py:46 | `split(".")` of `a.b`, with no dot in `a` or `b`, is exactly `[a, b]`. |
| Chat.DictPathResolves | kirara_ai/workflow/implementations/blocks/llm/chat.py:47-52 | `{a.b}`, with `a` a dict variable, is replaced by `str` of entry `b`, or kept as written when the dict has no key `b`. |
| Chat.AttributePathResolves | kirara_ai/workflow/implementations/blocks/llm/chat.py:53-56 | `{a.b}`, with `a` a variable holding any other value, is replaced by `str` of `getattr(a, "b")` when the value has that attribute, and kept as written otherwise. |
| Chat.UndefinedNameAttribute | kirara_ai/workflow/implementations/blocks/llm/chat.py:47-54 | `{a.b}`, with `a` undefined, starts the walk at the placeholder string, so an attribute `b` of that `str` is what gets printed. |
| Chat.Strings | kirara_ai/workflow/implementations/blocks/llm/chat.py:73-74 | A memory list of strings, item for item. |
| Chat.LlmMessagesOf | kirara_ai/workflow/implementations/blocks/llm/chat.py:91-92 | A memory list of chat messages, item for item. |
| Chat.FixedReplacements | kirara_ai/workflow/implementations/blocks/llm/chat.py:67-74 | Every fixed replacement key is a non-empty `{...}` placeholder. |
| Chat.PlainFormatUnchanged | kirara_ai/workflow/implementations/blocks/llm/chat.py:76-81 | A format without `'{'` becomes a prompt equal to itself: no fixed replacement and no variable applies to it. |
| Chat.ConstructChatMessages | kirara_ai/workflow/implementations/blocks/llm/chat.py:63-95 | The record has the memory messages plus two. It opens with a system message holding the substituted system prompt. The memory messages follow, in order, when the memory is a list of chat messages. It ends with a user message with no tool calls, holding the substituted user prompt and then one image part per image, in order. Both prompts get the fixed replacements before variable substitution. |
| Chat.PartElementsOf | kirara_ai/workflow/implementations/blocks/llm/chat.py:133-139 | A text part gives its non-blank `<break>` pieces, an image part one image element, any other part nothing. |
| Chat.BreakTextElements | kirara_ai/workflow/implementations/blocks/llm/chat.py:135-137 | A text part's elements are the stripped non-blank pieces of its `<break>` split, in order. |
| Chat.PieceElements | kirara_ai/workflow/implementations/blocks/llm/chat.py:135-137 | The loop over pieces keeps each non-blank piece, stripped, as a text element, in order. |
| Chat.PieceStep | kirara_ai/workflow/implementations/blocks/llm/chat.py:136-137 | A non-blank piece contributes its stripped text and a blank one nothing. |
| Chat.ConvertResponse | kirara_ai/workflow/implementations/blocks/llm/chat.py:130-140 | A response without a message raises. Otherwise the result is a message from the bot holding every part's elements, in part order. |
| Chat.PartTextsStripped | kirara_ai/workflow/implementations/blocks/llm/chat.py:135-137 | Every text element made from a part is non-empty and already stripped. |
| Chat.ConvertedTextsStripped | kirara_ai/workflow/implementations/blocks/llm/chat.py:131-140 | Every text element of a converted response is non-empty and already stripped. |
| Chat.TextElementsHaveNoImages | kirara_ai/workflow/implementations/blocks/llm/chat.py:137 | Text elements contribute no image. |
| Chat.ConvertedImagesInOrder | kirara_ai/workflow/implementations/blocks/llm/chat.py:133-139 | The image elements of the converted message are exactly the response's image parts, one each, in order. |
| Chat.ToolNamedIsLast | kirara_ai/workflow/implementations/blocks/llm/chat.py:184 | The name-to-tool dict finds the last tool with the name. It finds none exactly when no tool has that name. |
| Chat.ToolMessages | kirara_ai/workflow/implementations/blocks/llm/chat.py:190-197 | At most one tool message per call: calls to unknown tools are skipped. |
| Chat.ToolMessagesAppend | kirara_ai/workflow/implementations/blocks/llm/chat.py:190-197 | One more call appends, at the end, exactly one message when its function name is a known tool, that tool's result for the call, and nothing otherwise. |
| Chat.ToolMessagesPerCall | kirara_ai/workflow/implementations/blocks/llm/chat.py:190-197 | When every call names a known tool, there is one message per call and the `i`-th is the tool result of the `i`-th call. When none does, there is none. |
| Chat.InvokeTools | kirara_ai/workflow/implementations/blocks/llm/chat.py:190-197 | The inner loop runs forward over the calls and appends each known tool's result, in call order. The messages equal `ToolMessages`, so `ToolMessagesAppend` and `ToolMessagesPerCall` describe them. |
| Chat.RunContinues | kirara_ai/workflow/implementations/blocks/llm/chat.py:177-189 | An iteration whose response calls tools makes its request and goes on with the round's messages appended. |
| Chat.RunFirst | kirara_ai/workflow/implementations/blocks/llm/chat.py:177-186 | When any request is made, the iteration is below the limit and the first request carries the conversation so far. |
| Chat.RunStops | kirara_ai/workflow/implementations/blocks/llm/chat.py:188-199 | A response without tool calls ends the loop after its own request. |
| Chat.RunLength | kirara_ai/workflow/implementations/blocks/llm/chat.py:177 | The loop makes at most as many chat calls as there are iterations left. |
| Chat.RunRequest | kirara_ai/workflow/implementations/blocks/llm/chat.py:177-197 | Every request carries the tools when there are any, and `tool_choice = "none"` exactly on the last permitted iteration. The first request sends the input messages. Each later request follows a response that called tools and sends the previous messages plus that round's messages. |
| Chat.RunFinishes | kirara_ai/workflow/implementations/blocks/llm/chat.py:198-201 | A finished run returns the last response, which has a message. If it still called tools, the iterations ran out. The intermediate messages are everything appended after the input, including the last round when tools were called. |
| Chat.RunFinishesHere | kirara_ai/workflow/implementations/blocks/llm/chat.py:198-201 | The same, for a run that stops at the current iteration. |
| Chat.RunRaises | kirara_ai/workflow/implementations/blocks/llm/chat.py:186-188 | A run raises only for a response without a message, or when no iteration ran at all (`response` is unbound). |
| Chat.ToolLoopRun | kirara_ai/workflow/implementations/blocks/llm/chat.py:175-201 | The whole loop from the start: at most `max_iterations` calls, each request as above, and the outcome as above. |
| Chat.RunToolLoop | kirara_ai/workflow/implementations/blocks/llm/chat.py:175-201 | The `while` loop computes exactly the run specified above. |
| Chat.ChatWithTools | kirara_ai/workflow/implementations/blocks/llm/chat.py:166-201 | An empty model name raises before any call, as does a model that is not found. Otherwise the result is the tool loop's run. |
| Help.Keywords | kirara_ai/workflow/implementations/blocks/system/help.py:16 | The configured keyword list, item for item, or empty when the key is missing. |
| Help.GenericConditionIffUnknownType | kirara_ai/workflow/implementations/blocks/system/help.py:11-26 | A condition text starts with `"Using "` exactly when the rule type is not one of the six known types. |
| Help.KeywordsDefaultEmpty | kirara_ai/workflow/implementations/blocks/system/help.py:15-17 | A keyword rule without keywords reads `"Input contains "`. |
| Help.Separator | kirara_ai/workflow/implementations/blocks/system/help.py:37 | The separator is `" and "` exactly when the operator is `"and"`. |
| Help.FormatRuleCondition | kirara_ai/workflow/implementations/blocks/system/help.py:11-26 | Definition, no contract: one text per known rule type, and `"Using {type} rule"` for any other. Its properties are `GenericConditionIffUnknownType` and `KeywordsDefaultEmpty`. |
| Help.Conditions | kirara_ai/workflow/implementations/blocks/system/help.py:31-35 | One condition text per rule. |
| Help.GroupTextShort | kirara_ai/workflow/implementations/blocks/system/help.py:29-38 | An empty group gives `""`, and a one-rule group gives that rule's condition text. |
| Help.FormatRuleGroup | kirara_ai/workflow/implementations/blocks/system/help.py:29-38 | The loop yields the rules' conditions, in rule order, joined by the group's separator. |
| Help.Parenthesized | kirara_ai/workflow/implementations/blocks/system/help.py:68 | Each condition wrapped in parentheses, in order. |
| Help.GroupTexts | kirara_ai/workflow/implementations/blocks/system/help.py:63-65 | One text per rule group. |
| Help.FormatRule | kirara_ai/workflow/implementations/blocks/system/help.py:62-68 | A rule's trigger text is its groups' texts, each parenthesized, joined by `" and "`. |
| Help.BeforeColonIsFirstPiece | kirara_ai/workflow/implementations/blocks/system/help.py:58 | The text before the first `':'` is the first piece of `split(":")`. |
| Help.BeforeColonShape | kirara_ai/workflow/implementations/blocks/system/help.py:58 | That text is a prefix without `':'`, followed by `':'` unless it is the whole id. |
| Help.CategoryIsTextBeforeColon | kirara_ai/workflow/implementations/blocks/system/help.py:58 | A category is the lower-cased text of the workflow id before its first `':'`. |
| Help.CategoriesExact | kirara_ai/workflow/implementations/blocks/system/help.py:56-60 | The dict's keys, in first-appearance order: each category once, and exactly the rules' categories. |
| Help.CategoriesStep | kirara_ai/workflow/implementations/blocks/system/help.py:59-60 | A rule adds its category to the key order only when it is new. |
| Help.CommandsInStep | kirara_ai/workflow/implementations/blocks/system/help.py:70-76 | A rule appends its command to its own category's list only. |
| Help.CommandsInOutside | kirara_ai/workflow/implementations/blocks/system/help.py:59-60 | A category no rule has holds no commands. |
| Help.CommandsGrouped | kirara_ai/workflow/implementations/blocks/system/help.py:56-76 | A category holds the command of every rule with that category, and only such commands. |
| Help.GroupingStep | kirara_ai/workflow/implementations/blocks/system/help.py:56-76 | One iteration of the grouping loop keeps the dict equal to the grouping of the rules seen so far. |
| Help.GroupCommands | kirara_ai/workflow/implementations/blocks/system/help.py:55-76 | The grouping loop builds exactly the category-to-commands dict of the rules, keys in first-appearance order. |
| Help.CommandTextParts | kirara_ai/workflow/implementations/blocks/system/help.py:84-88 | The four `+=` of one command produce that command's text. |
| Help.AppendCommand | kirara_ai/workflow/implementations/blocks/system/help.py:84-88 | Appends a command's name line, its trigger line, a description line only when the description is non-empty, and a blank line. |
| Help.AppendSection | kirara_ai/workflow/implementations/blocks/system/help.py:82-89 | Appends the upper-cased category title, the category's commands sorted by name, and a blank line. |
| Help.SectionsOrdered | kirara_ai/workflow/implementations/blocks/system/help.py:81 | The sections come in strictly increasing category order, one per category of the rules. |
| Help.SortedCategoriesMembers | kirara_ai/workflow/implementations/blocks/system/help.py:81 | Sorting keeps exactly the categories. |
| Help.SortedCategoriesStrict | kirara_ai/workflow/implementations/blocks/system/help.py:81 | The sorted categories are strictly increasing. |
| Help.SectionCommandsSorted | kirara_ai/workflow/implementations/blocks/system/help.py:83 | Within a section, the commands are sorted by name and are a permutation of the category's commands. |
| Help.GenerateHelp | kirara_ai/workflow/implementations/blocks/system/help.py:49-96 | The result is one message from the bot with exactly one text element: the header, then a section per category in sorted order. |
| Dice.SpaceRun | kirara_ai/workflow/implementations/blocks/game/dice.py:27 | A greedy `\s*`: the longest whitespace prefix. |
| Dice.DigitRun | kirara_ai/workflow/implementations/blocks/game/dice.py:27 | A greedy `\d`-run: the longest digit prefix. |
| Dice.SpaceRunOf | kirara_ai/workflow/implementations/blocks/game/dice.py:27 | Whitespace followed by a non-space is consumed exactly. |
| Dice.DigitRunOf | kirara_ai/workflow/implementations/blocks/game/dice.py:27 | Digits followed by a non-digit are consumed exactly. |
| Dice.SidesPart | kirara_ai/workflow/implementations/blocks/game/dice.py:27 | `d(\d+)` matches a `'d'` and a maximal, non-empty run of digits. |
| Dice.MatchRest | kirara_ai/workflow/implementations/blocks/game/dice.py:27 | After the command word: whitespace, optional count digits, `'d'`, sides digits, as a prefix of the text and not followed by a digit. |
| Dice.ParseDice | kirara_ai/workflow/implementations/blocks/game/dice.py:27-28 | A match consumes a prefix of the command. The prefix is `'.'` or `'。'`, `"roll"`, whitespace, optional digits, `'d'` and non-empty digits, and is not followed by a digit; trailing text is ignored. |
| Dice.SidesPartComplete | kirara_ai/workflow/implementations/blocks/game/dice.py:27 | `'d'`, digits and a non-digit tail always match, with exactly those digits. |
| Dice.MatchRestComplete | kirara_ai/workflow/implementations/blocks/game/dice.py:27 | Every well-formed command body followed by a non-digit tail is matched, with exactly its parts. |
| Dice.ParseDiceComplete | kirara_ai/workflow/implementations/blocks/game/dice.py:27-28 | Every command of the accepted shape, followed by any text not starting with a digit, is accepted, with exactly its parts. So the parser accepts exactly the pattern's language. |
| Dice.PlainCommandParses | kirara_ai/workflow/implementations/blocks/game/dice.py:27-37 | `".roll{count}d{sides}"` parses to that count and those sides. |
| Dice.Rolls | kirara_ai/workflow/implementations/blocks/game/dice.py:48 | Exactly `count` rolls. |
| Dice.RollsInRange | kirara_ai/workflow/implementations/blocks/game/dice.py:48 | With a fair source, each roll lies in `[1, sides]`. |
| Dice.RollTexts | kirara_ai/workflow/implementations/blocks/game/dice.py:52 | `str` of each roll, in order. |
| Dice.DetailsOneDie | kirara_ai/workflow/implementations/blocks/game/dice.py:49-54 | One die: the heading and its roll, with no `" = total"`. |
| Dice.DetailsNoDice | kirara_ai/workflow/implementations/blocks/game/dice.py:49-54 | Zero dice: the heading alone. |
| Dice.DiceRoll | kirara_ai/workflow/implementations/blocks/game/dice.py:24-61 | Every reply is one bot message with exactly one text element. The block raises exactly when it rolls at least one die with zero sides. |
| Dice.NotACommand | kirara_ai/workflow/implementations/blocks/game/dice.py:27-34 | A message not starting with `'.'` or `'。'` gets `"Invalid dice command"`. |
| Dice.DiceLimit | kirara_ai/workflow/implementations/blocks/game/dice.py:39-54 | Up to and including 100 dice are rolled and reported. Above 100, the reply is `"Too many dice (max 100)"`. |
| ImBlocks.ImMessageToText | kirara_ai/workflow/implementations/blocks/im/messages.py:72-73 | Definition, no contract: the message's `content`, a function of its elements that is not part of this model. |
| ImBlocks.TextToImMessage | kirara_ai/workflow/implementations/blocks/im/messages.py:87-101 | The sender is always the bot. With no or an empty separator there is one text element holding the text unchanged, even when empty. Otherwise the elements are the stripped non-blank pieces, in order. |
| ImBlocks.SplitElementsClean | kirara_ai/workflow/implementations/blocks/im/messages.py:92 | At most one element per piece, each a non-empty, stripped text. |
| ImBlocks.SplitElementsArePieces | kirara_ai/workflow/implementations/blocks/im/messages.py:92 | Every element is some piece, stripped. |
| ImBlocks.SplitKeepsNonBlankPieces | kirara_ai/workflow/implementations/blocks/im/messages.py:92 | Every non-blank piece appears, stripped. |
| ImBlocks.SplitWithoutSeparatorElements | kirara_ai/workflow/implementations/blocks/im/messages.py:88-94 | A text without the separator gives its stripped self, or nothing when blank. |
| ImBlocks.AppendImMessage | kirara_ai/workflow/implementations/blocks/im/messages.py:115-116 | The base sender, and the base elements followed by the appended one, one longer. |
| ImBlocks.AppendTwice | kirara_ai/workflow/implementations/blocks/im/messages.py:115-116 | Appending twice appends both, in order, to the unchanged base. |
| TextBlocks.TextBlock.Execute | kirara_ai/workflow/implementations/blocks/system/basic.py:18-19 | Definition, no contract: the configured text, whatever the inputs. |
| TextBlocks.TextConcat | kirara_ai/workflow/implementations/blocks/system/basic.py:31-32 | `text1` is a prefix, `text2` the rest, and the lengths add up. |
| TextBlocks.TextReplace | kirara_ai/workflow/implementations/blocks/system/basic.py:49-52 | Definition, no contract: `text.replace(variable, str(new_text))`. Its properties are the three lemmas below. |
| TextBlocks.TextReplaceLeftToRight | kirara_ai/workflow/implementations/blocks/system/basic.py:49-52 | Every non-overlapping occurrence, left to right, is replaced by `str(new_text)`: the split joined with it. |
| TextBlocks.TextReplaceAbsent | kirara_ai/workflow/implementations/blocks/system/basic.py:51 | A text without the variable is returned unchanged. |
| TextBlocks.TextReplaceWithItself | kirara_ai/workflow/implementations/blocks/system/basic.py:51 | Replacing the variable with itself changes nothing. |
| LlmBlocks.RenderedAppend | kirara_ai/workflow/implementations/blocks/llm/basic.py:19-27 | The rendering is a left-to-right fold: the rendering of two part lists is the concatenation of their renderings. |
| LlmBlocks.OtherPartsVanish | kirara_ai/workflow/implementations/blocks/llm/basic.py:21-25 | A part that is neither text nor image contributes nothing. |
| LlmBlocks.LlmResponseToText | kirara_ai/workflow/implementations/blocks/llm/basic.py:18-27 | No message gives `""`. Otherwise the result is the parts rendered in order: text verbatim and images as `<media_msg id=ID />`. |
| ChatMemory.ScopeTypeOptions | kirara_ai/workflow/implementations/blocks/memory/chat_memory.py:14-15 | Exactly the three scopes `global`, `member` and `group`. |
| ChatMemory.DecomposerNameOptions | kirara_ai/workflow/implementations/blocks/memory/chat_memory.py:18-19 | Exactly `default` and `multi_element`. |
| ChatMemory.DecomposerName | kirara_ai/workflow/implementations/blocks/memory/chat_memory.py:53 | A missing or empty name falls back to `"default"`; any other name is kept. |
| ChatMemory.DecomposerOffered | kirara_ai/workflow/implementations/blocks/memory/chat_memory.py:43-53 | The decomposer used is offered, and non-empty, whenever the configured one is offered or missing. |
| ChatMemory.ScopeType | kirara_ai/workflow/implementations/blocks/memory/chat_memory.py:59-60 | The configured scope, or the memory configuration's default when none is configured. |
| ChatMemory.ChatMemoryQuery.constructor | kirara_ai/workflow/implementations/blocks/memory/chat_memory.py:33-53 | Keeps the scope as given and the decomposer name with its default applied. |
| ChatMemory.ChatMemoryQuery.Execute | kirara_ai/workflow/implementations/blocks/memory/chat_memory.py:55-73 | Fills in the default scope when none is configured and keeps it. It looks up that scope and the configured decomposer, and queries the scope for the sender with that decomposer. |
| ChatMemory.ComposedOrder | kirara_ai/workflow/implementations/blocks/memory/chat_memory.py:127-137 | The user message comes first when present, then every intermediate step in order. The response's message comes last when there is a response with a message. Nothing else is included. |
| ChatMemory.ComposedEmpty | kirara_ai/workflow/implementations/blocks/memory/chat_memory.py:127-139 | Nothing is collected exactly when there is no user message, no step and no response message. |
| ChatMemory.StoreRequestOf | kirara_ai/workflow/implementations/blocks/memory/chat_memory.py:139-148 | No request when nothing is collected. Otherwise one request holds the collected messages, the scope and the default composer. Its sender is the user message's sender when there is a user message, else none. |
| ChatMemory.ChatMemoryStore.constructor | kirara_ai/workflow/implementations/blocks/memory/chat_memory.py:92-103 | Keeps the scope as given. |
| ChatMemory.ChatMemoryStore.Execute | kirara_ai/workflow/implementations/blocks/memory/chat_memory.py:106-148 | Fills in the default scope when none is configured and keeps it. It uses that scope and the default composer, and returns the store request of the collected messages, or none when there are none. |
| Messages.Str | kirara_ai/workflow/implementations/blocks/system/basic.py:51 | `str` of a string is the string itself. |
| Numerals.NatToString | kirara_ai/workflow/implementations/blocks/game/dice.py:52 | `str(n)` is a non-empty digit string without a leading zero unless it is `"0"`. |
| Numerals.ParseNatToString | kirara_ai/workflow/implementations/blocks/game/dice.py:36-37 | `int(str(n)) == n`. |
| Numerals.NatToStringInjective | kirara_ai/workflow/implementations/blocks/game/dice.py:52 | Different counts or sides are printed differently. |
| Text.TrimLeft | kirara_ai/workflow/implementations/blocks/im/messages.py:92 | Removes exactly the leading whitespace. |
| Text.TrimRight | kirara_ai/workflow/implementations/blocks/im/messages.py:92 | Removes exactly the trailing whitespace. |
| Text.StripShape | kirara_ai/workflow/implementations/blocks/im/messages.py:92 | `strip()` is empty exactly for a blank text. Otherwise it neither starts nor ends with whitespace and is a contiguous part of the text. |
| Text.StripIdempotent | kirara_ai/workflow/implementations/blocks/im/messages.py:92 | Stripping twice is stripping once. |
| Text.FindFrom | kirara_ai/workflow/implementations/blocks/system/basic.py:51 | The first occurrence at or after a position, if any. |
| Text.Find | kirara_ai/workflow/implementations/blocks/system/basic.py:51 | The first occurrence, none exactly when the text does not contain the separator. |
| Text.Split | kirara_ai/workflow/implementations/blocks/im/messages.py:92 | `split` always yields at least one piece. |
| Text.SplitPiecesFree | kirara_ai/workflow/implementations/blocks/im/messages.py:92 | No piece contains the separator. |
| Text.JoinSplit | kirara_ai/workflow/implementations/blocks/im/messages.py:92 | Joining the pieces with the separator gives back the text. |
| Text.SplitWithoutSeparator | kirara_ai/workflow/implementations/blocks/im/messages.py:92 | A text without the separator is its own single piece. |
| Text.StrippedNonBlank | kirara_ai/workflow/implementations/blocks/im/messages.py:92 | Filtering keeps at most one text per piece. |
| Text.StrippedNonBlankKeeps | kirara_ai/workflow/implementations/blocks/im/messages.py:92 | Every non-blank piece is kept, stripped. |
| Text.StrippedNonBlankFrom | kirara_ai/workflow/implementations/blocks/im/messages.py:92 | Every kept text is some piece, stripped. |
| Text.StrippedNonBlankClean | kirara_ai/workflow/implementations/blocks/im/messages.py:92 | Every kept text is non-empty and already stripped. |
| Text.NonBlankPiecesWithoutSeparator | kirara_ai/workflow/implementations/blocks/im/messages.py:92 | A text without the separator gives its stripped self, or nothing when blank. |
| Text.ReplaceEmpty | kirara_ai/workflow/implementations/blocks/system/basic.py:51 | Replacing `""` adds one copy of the replacement per gap of the text: one more than its length. |
| Text.ReplaceIsJoinOfSplit | kirara_ai/workflow/implementations/blocks/system/basic.py:51 | `replace` with a non-empty target is `split` followed by `join` with the replacement. |
| Text.ReplaceAbsent | kirara_ai/workflow/implementations/blocks/system/basic.py:51 | A text without the target is unchanged. |
| Text.ReplaceWithItself | kirara_ai/workflow/implementations/blocks/system/basic.py:51 | Replacing a target with itself is the identity, the empty target included. |
| Text.ReplaceEmptyWithEmpty | kirara_ai/workflow/implementations/blocks/system/basic.py:51 | Replacing `""` with `""` is the identity. |
| Text.Lower | kirara_ai/workflow/implementations/blocks/system/help.py:58 | Character-wise lower case. |
| Text.Upper | kirara_ai/workflow/implementations/blocks/system/help.py:82 | Character-wise upper case. |
| Text.LowerIdempotent | kirara_ai/workflow/implementations/blocks/system/help.py:58 | A category is already lower case: lower-casing it again changes nothing. |
| Text.StrLeTotal | kirara_ai/workflow/implementations/blocks/system/help.py:81-83 | Python's string order is total. |
| Text.StrLeAntisymmetric | kirara_ai/workflow/implementations/blocks/system/help.py:81-83 | Python's string order is antisymmetric. |
| Text.StrLeTransitive | kirara_ai/workflow/implementations/blocks/system/help.py:81-83 | Python's string order is transitive. |
| Text.InsertBy | kirara_ai/workflow/implementations/blocks/system/help.py:83 | Inserting adds exactly that element. |
| Text.SortBy | kirara_ai/workflow/implementations/blocks/system/help.py:81-83 | `sorted` is a permutation of its input. |
| Text.InsertBySorted | kirara_ai/workflow/implementations/blocks/system/help.py:83 | Insertion keeps a sorted list sorted. |
| Text.SortBySorted | kirara_ai/workflow/implementations/blocks/system/help.py:81-83 | `sorted` yields a list sorted by the key. |
| Text.WithKeySnoc | kirara_ai/workflow/implementations/blocks/system/help.py:81-83 | Keeping the elements with one key distributes over appending an element. |
| Text.InsertByStable | kirara_ai/workflow/implementations/blocks/system/help.py:81-83 | Inserting into a sorted list places the new element after every element with the same key. |
| Text.SortByStable | kirara_ai/workflow/implementations/blocks/system/help.py:81-83 | `sorted` is stable: for every key, the elements with that key keep their relative order. |

## Left out

- `register` in the source does not run `extract_block_info`; it only records the ports' type names. The model follows the code.
- `clear` in the source does not forget localized names. The model follows the code.
- `TypeSystem` (`get_type_name`, `extract_type_info`, `register_type`, `is_compatible`, `get_compatibility_map`) is not part of this model. It is kept as the set of registered type names and the uninterpreted functions of `TypeOracle`. Nothing is assumed about reflexivity, `Any` or containers. `register_type`'s second argument (the Python type object) is not kept.
- Python reflection (`inspect.signature`, `get_origin`, `get_args`, `getattr(block_class, "inputs", {})`) is replaced by explicit values. A class without `inputs` or `outputs` is a class with an empty table.
- Dict iteration order inside `extract_block_info` does not show in its result maps and is not modelled.
- `warnings.warn` in `get_block_type_name` is the boolean `warned`.
- Registry.BlockRegistry.ExtractBlockInfo: requires the constructor's parameter names to be distinct, which `inspect.signature` guarantees.
- `datetime.now()` in `ChatMessageConstructor.execute` is the parameter `now`. The workflow executor's variables are a map. Python's `hasattr`/`getattr` on a value that is not a dict is the function `getAttr` supplied with them: it is `None` when the attribute is missing or reading it raises, so the `except Exception` branch is that case.
- `IMMessage.content` and `IMMessage.images` are computed in `kirara_ai/im/message.py`, which is not part of this model. They are the functions of a `MessageView`. So `IMMessageToText` (modelled as `ImMessageToText`) only reads that property, and nothing is proved about it.
- `ChatSender.get_bot_sender()` is the parameter `bot`.
- The LLM's `chat` and each tool's `invokeFunc` (run through `asyncio.run_coroutine_threadsafe`) are functions supplied with the loop. `get_llm` is the parameter `llm`, `None` when the model is not found. The event loop is not modelled.
- The exceptions the tool loop and the response converter raise are outcomes carrying their cause, not Python exceptions. This covers a missing model name, an unknown model, a response without a message, and `max_iterations <= 0`, which leaves `response` unbound.
- `ChatCompletion.execute` (model lookup and one `chat` call) has no logic beyond the collaborator calls and is not modelled.
- The truthiness checks `if response.message` in `llm/basic.py` and `if llm_resp.message` in `chat_memory.py` are modelled as "a message is present". The truthiness check `if user_msg` is modelled as "a user message is present".
- Dice.DiceRoll: `random.randint` is the parameter `draw`. The rolls' fairness is an assumption of `RollsInRange`. The `ValueError` text for zero sides is a fixed string.
- Dice.ParseDice: `\d` and `\s` are taken over ASCII digits and Python's whitespace characters as listed in `Text.IsSpace`. Other Unicode decimal digits are not accepted.
- Help.FormatRuleCondition: rules are of type `WellFormedRule` (the predicate `ConfigFits`). Their configuration holds every key their type indexes, so the `KeyError` of a missing key is not modelled. A keyword rule's `keywords` is a list of strings, so the `TypeError` that `' or '.join` raises on a non-string keyword is not modelled either.
- Text.Lower / Text.Upper: `lower()` and `upper()` map ASCII letters only. Other Unicode case mappings are not modelled.
- `DispatchRuleRegistry.get_active_rules()` is the rule list passed to `GenerateHelp`.
- The memory manager, the scope, composer and decomposer registries, and `query`, `decompose`, `compose` and `store` are not called. `ChatMemoryQuery.Execute` returns its query, and `ChatMemoryStore.Execute` returns the store request or none. The scope and composer fields hold the names that were looked up.
- The logger calls in `ChatMemoryStore.execute` are not modelled.
- `TextExtractByRegexBlock`, `CurrentTimeBlock` (clock), `SendIMMessage`/`GetIMMessage` (I/O), the variable blocks and `GachaSimulator` (floating-point random sampling) are outside the modelled core.
