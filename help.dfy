/**
 * The `generate_help` block (`kirara_ai/workflow/implementations/blocks/system/help.py`): it
 * describes every active dispatch rule's trigger condition, groups the rules into categories
 * taken from their workflow ids and renders one help text.
 */
module Help {
  import opened Text
  import opened Messages

  /** A single dispatch rule: its `type` and its `config` dictionary. */
  datatype Rule = Rule(ruleType: string, config: map<string, PyValue>)

  /** `RuleGroup`: rules combined with `operator` ("and", or anything else meaning "or"). */
  datatype RuleGroup = RuleGroup(operator: string, rules: seq<WellFormedRule>)

  /** An active combined dispatch rule as the help block reads it. */
  datatype CombinedRule = CombinedRule(
    workflowId: string,
    name: string,
    description: string,
    ruleGroups: seq<RuleGroup>)

  /** The dictionary built for each command: its name, trigger text and description. */
  datatype Command = Command(name: string, format: string, description: string)

  const Header := "\U{1F916} Bot Command Help\n\n"
  const CategoryMark := "\U{1F4D1} "
  const CommandMark := "\U{1F538} "
  const TriggerLabel := "  Trigger Condition: "
  const DescriptionLabel := "  Description: "

  /** The rule types with a text of their own. */
  const KnownRuleTypes := ["prefix", "keyword", "regex", "fallback", "bot_mention", "chat_type"]

  // ---------------------------------------------------------------------------
  // Conditions
  // ---------------------------------------------------------------------------

  predicate IsStringList(v: PyValue) {
    v.PyList? && forall k :: 0 <= k < |v.items| ==> v.items[k].PyStr?
  }

  /** What formatting a condition needs of its configuration: the keys it indexes, and a keyword list of strings. */
  predicate ConfigFits(rule: Rule) {
    && (rule.ruleType == "prefix" ==> "prefix" in rule.config)
    && (rule.ruleType == "keyword" && "keywords" in rule.config ==> IsStringList(rule.config["keywords"]))
    && (rule.ruleType == "regex" ==> "pattern" in rule.config)
    && (rule.ruleType == "chat_type" ==> "chat_type" in rule.config)
  }

  /** A rule whose configuration has what its type reads, as the dispatch rule classes guarantee. */
  type WellFormedRule = r: Rule | ConfigFits(r) witness Rule("fallback", map[])

  /** `config.get("keywords", [])`. */
  function Keywords(config: map<string, PyValue>): (r: seq<string>)
    requires "keywords" in config ==> IsStringList(config["keywords"])
    ensures "keywords" !in config ==> r == []
    ensures "keywords" in config ==>
      |r| == |config["keywords"].items| &&
      forall k :: 0 <= k < |r| ==> r[k] == config["keywords"].items[k].s
  {
    if "keywords" in config then
      var items := config["keywords"].items;
      seq(|items|, k requires 0 <= k < |items| => items[k].s)
    else []
  }

  /** `_format_rule_condition(rule.type, rule.config)`. */
  function FormatRuleCondition(rule: Rule): string
    requires ConfigFits(rule)
  {
    var config := rule.config;
    if rule.ruleType == "prefix" then "Input starts with " + Str(config["prefix"])
    else if rule.ruleType == "keyword" then "Input contains " + Join(Keywords(config), " or ")
    else if rule.ruleType == "regex" then "Input matches regex " + Str(config["pattern"])
    else if rule.ruleType == "fallback" then "Any input"
    else if rule.ruleType == "bot_mention" then "@me"
    else if rule.ruleType == "chat_type" then "Chat type: " + Str(config["chat_type"])
    else "Using " + rule.ruleType + " rule"
  }

  /**
   * The generic "Using ... rule" text is given exactly to the rule types without a text of
   * their own, so a reader can tell the two kinds apart.
   */
  lemma GenericConditionIffUnknownType(rule: Rule)
    requires ConfigFits(rule)
    ensures (|FormatRuleCondition(rule)| >= 6 && FormatRuleCondition(rule)[..6] == "Using ")
      <==> rule.ruleType !in KnownRuleTypes
  {
    var r := FormatRuleCondition(rule);
    if rule.ruleType in KnownRuleTypes {
      assert r[0] != 'U';
    } else {
      assert r[..6] == "Using ";
    }
  }

  /** A keyword rule without a keyword list names no keywords. */
  lemma KeywordsDefaultEmpty(rule: Rule)
    requires rule.ruleType == "keyword" && "keywords" !in rule.config
    ensures FormatRuleCondition(rule) == "Input contains "
  {
  }

  // ---------------------------------------------------------------------------
  // Groups and combined rules
  // ---------------------------------------------------------------------------

  /** The separator between a group's conditions. */
  function Separator(operator: string): (sep: string)
    ensures sep == " and " <==> operator == "and"
  {
    if operator == "and" then " and " else " or "
  }

  /** The condition of every rule of a list, in order. */
  function Conditions(rules: seq<WellFormedRule>): (r: seq<string>)
    ensures |r| == |rules|
  {
    seq(|rules|, k requires 0 <= k < |rules| => FormatRuleCondition(rules[k]))
  }

  /** The text of a rule group: its conditions joined by the operator's separator. */
  function GroupText(group: RuleGroup): string
  {
    Join(Conditions(group.rules), Separator(group.operator))
  }

  /** An empty group says nothing; a group of one rule is that rule's condition whatever its operator. */
  lemma GroupTextShort(group: RuleGroup)
    requires && |group.rules| <= 1
    ensures group.rules == [] ==> GroupText(group) == ""
    ensures |group.rules| == 1 ==> GroupText(group) == FormatRuleCondition(group.rules[0])
  {
  }

  /** `_format_rule_group`: collects the conditions in a loop and joins them. */
  method FormatRuleGroup(group: RuleGroup) returns (r: string)
    ensures r == Join(Conditions(group.rules), Separator(group.operator))
  {
    var conditions: seq<string> := [];
    var i := 0;
    while i < |group.rules|
      invariant 0 <= i <= |group.rules|
      invariant |conditions| == i
      invariant forall k :: 0 <= k < i ==> conditions[k] == FormatRuleCondition(group.rules[k])
    {
      conditions := conditions + [FormatRuleCondition(group.rules[i])];
      i := i + 1;
    }
    assert conditions == Conditions(group.rules);
    var operator := if group.operator == "and" then " and " else " or ";
    r := Join(conditions, operator);
  }

  /** Each text wrapped in parentheses. */
  function Parenthesized(texts: seq<string>): (r: seq<string>)
    ensures |r| == |texts|
    ensures forall k :: 0 <= k < |r| ==> r[k] == "(" + texts[k] + ")"
  {
    seq(|texts|, k requires 0 <= k < |texts| => "(" + texts[k] + ")")
  }

  function GroupTexts(groups: seq<RuleGroup>): (r: seq<string>)
    ensures |r| == |groups|
  {
    seq(|groups|, k requires 0 <= k < |groups| => GroupText(groups[k]))
  }

  /** A combined rule's trigger text: every group's text in parentheses, joined by " and ". */
  function RuleFormat(rule: CombinedRule): string
  {
    Join(Parenthesized(GroupTexts(rule.ruleGroups)), " and ")
  }

  function CommandOf(rule: CombinedRule): Command
  {
    Command(rule.name, RuleFormat(rule), rule.description)
  }

  // ---------------------------------------------------------------------------
  // Categories
  // ---------------------------------------------------------------------------

  /** The text in front of the first ':' of `s`, or all of `s` when it has none. */
  function BeforeColon(s: string): string {
    if s == [] || s[0] == ':' then [] else [s[0]] + BeforeColon(s[1..])
  }

  /** A rule's category: `workflow_id.split(":")[0].lower()`. */
  function Category(workflowId: string): string {
    Lower(BeforeColon(workflowId))
  }

  /** `BeforeColon` is the first piece of Python's `split(":")`. */
  lemma {:induction false} BeforeColonIsFirstPiece(s: string)
    ensures BeforeColon(s) == Split(s, ":")[0]
  {
    var head := BeforeColon(s);
    BeforeColonShape(s);
    match Find(s, ":")
    case None =>
      if |head| < |s| {
        assert OccursAt(s, ":", |head|);
      }
      assert head == s;
    case Some(i) =>
      assert OccursAt(s, ":", i);
      if |head| < i {
        assert OccursAt(s, ":", |head|);
      }
      assert Split(s, ":")[0] == s[..i];
  }

  /** `BeforeColon(s)` is a colon-free prefix of `s` followed by ':' or the end of `s`. */
  lemma {:induction false} BeforeColonShape(s: string)
    ensures var h := BeforeColon(s);
      && |h| <= |s| && h == s[..|h|]
      && (forall k :: 0 <= k < |h| ==> s[k] != ':')
      && (|h| < |s| ==> s[|h|] == ':')
  {
    if s != [] && s[0] != ':' {
      BeforeColonShape(s[1..]);
    }
  }

  /** The category is the lower-cased text in front of the first ':' (or all of the id when there is none). */
  lemma CategoryIsTextBeforeColon(workflowId: string)
    ensures var c := Category(workflowId);
      && c == Lower(Split(workflowId, ":")[0])
      && |c| <= |workflowId|
      && c == Lower(workflowId[..|c|])
      && (forall k :: 0 <= k < |c| ==> workflowId[k] != ':')
      && (|c| < |workflowId| ==> workflowId[|c|] == ':')
  {
    BeforeColonIsFirstPiece(workflowId);
    BeforeColonShape(workflowId);
  }

  /** The distinct categories of the rules, in order of first appearance. */
  function Categories(rules: seq<CombinedRule>): (r: seq<string>)
  {
    if rules == [] then []
    else
      var order := Categories(rules[..|rules| - 1]);
      var c := Category(rules[|rules| - 1].workflowId);
      if c in order then order else order + [c]
  }

  /** The commands of the rules of one category, in rule order. */
  function CommandsIn(rules: seq<CombinedRule>, category: string): (r: seq<Command>)
  {
    if rules == [] then []
    else
      var last := rules[|rules| - 1];
      CommandsIn(rules[..|rules| - 1], category)
        + (if Category(last.workflowId) == category then [CommandOf(last)] else [])
  }

  /** Every category appears once, and exactly the rules' categories appear. */
  lemma {:induction false} CategoriesExact(rules: seq<CombinedRule>)
    ensures forall i, j :: 0 <= i < j < |Categories(rules)| ==> Categories(rules)[i] != Categories(rules)[j]
    ensures forall c :: c in Categories(rules) <==> exists k :: 0 <= k < |rules| && Category(rules[k].workflowId) == c
  {
    if rules != [] {
      var init := rules[..|rules| - 1];
      CategoriesExact(init);
      forall c ensures c in Categories(rules) <==> exists k :: 0 <= k < |rules| && Category(rules[k].workflowId) == c {
        if c in Categories(init) {
          var k :| 0 <= k < |init| && Category(init[k].workflowId) == c;
          assert rules[k] == init[k];
        }
        if k :| 0 <= k < |rules| && Category(rules[k].workflowId) == c {
          if k < |init| {
            assert init[k] == rules[k];
          }
        }
      }
    }
  }

  /** A text that is no rule's category has no commands. */
  lemma {:induction false} CommandsInOutside(rules: seq<CombinedRule>, category: string)
    requires category !in Categories(rules)
    ensures CommandsIn(rules, category) == []
  {
    if rules != [] {
      CommandsInOutside(rules[..|rules| - 1], category);
    }
  }

  /**
   * Grouping: every rule's command is listed under its own category, and everything listed
   * under a category is the command of a rule of that category.
   */
  lemma {:induction false} CommandsGrouped(rules: seq<CombinedRule>, category: string)
    ensures forall k :: 0 <= k < |rules| && Category(rules[k].workflowId) == category ==>
      CommandOf(rules[k]) in CommandsIn(rules, category)
    ensures forall cmd :: cmd in CommandsIn(rules, category) ==>
      exists k :: 0 <= k < |rules| && Category(rules[k].workflowId) == category && cmd == CommandOf(rules[k])
  {
    if rules != [] {
      var init := rules[..|rules| - 1];
      CommandsGrouped(init, category);
      forall k | 0 <= k < |rules| && Category(rules[k].workflowId) == category
        ensures CommandOf(rules[k]) in CommandsIn(rules, category)
      {
        if k < |init| {
          assert init[k] == rules[k];
        }
      }
      forall cmd | cmd in CommandsIn(rules, category)
        ensures exists k :: 0 <= k < |rules| && Category(rules[k].workflowId) == category && cmd == CommandOf(rules[k])
      {
        if cmd in CommandsIn(init, category) {
          var k :| 0 <= k < |init| && Category(init[k].workflowId) == category && cmd == CommandOf(init[k]);
          assert rules[k] == init[k];
        } else {
          assert cmd == CommandOf(rules[|rules| - 1]);
        }
      }
    }
  }

  // ---------------------------------------------------------------------------
  // The help text
  // ---------------------------------------------------------------------------

  function Identity(s: string): string {
    s
  }

  function NameOf(cmd: Command): string {
    cmd.name
  }

  /** One command's lines; the description line only when the description is non-empty. */
  function CommandText(cmd: Command): string {
    NameLine(cmd) + TriggerLine(cmd) + DescriptionLine(cmd) + "\n"
  }

  function NameLine(cmd: Command): string {
    CommandMark + cmd.name + "\n"
  }

  function TriggerLine(cmd: Command): string {
    TriggerLabel + cmd.format + "\n"
  }

  function DescriptionLine(cmd: Command): string {
    if cmd.description != "" then DescriptionLabel + cmd.description + "\n" else ""
  }

  function CommandsText(cmds: seq<Command>): string {
    if cmds == [] then "" else CommandsText(cmds[..|cmds| - 1]) + CommandText(cmds[|cmds| - 1])
  }

  lemma CommandsTextStep(cmds: seq<Command>, m: int)
    requires 0 <= m < |cmds|
    ensures CommandsText(cmds[..m + 1]) == CommandsText(cmds[..m]) + CommandText(cmds[m])
  {
    assert cmds[..m + 1][..m] == cmds[..m];
  }

  lemma Associative3(a: string, b: string, c: string, d: string)
    ensures a + b + c + d == a + (b + c + d)
  {
  }

  lemma CommandTextParts(prefix: string, cmd: Command)
    ensures prefix + NameLine(cmd) + TriggerLine(cmd) + DescriptionLine(cmd) + "\n" == prefix + CommandText(cmd)
  {
    var lines := NameLine(cmd) + TriggerLine(cmd) + DescriptionLine(cmd);
    Associative3(prefix, NameLine(cmd), TriggerLine(cmd), DescriptionLine(cmd));
    Associative(prefix, lines, "\n");
  }

  /** A category's section: its upper-cased title, then its commands sorted by name. */
  function SectionText(category: string, cmds: seq<Command>): string {
    TitleLine(category) + CommandsText(SortBy(cmds, NameOf)) + "\n"
  }

  function TitleLine(category: string): string {
    CategoryMark + Upper(category) + "\n"
  }

  function SectionsText(categories: seq<string>, rules: seq<CombinedRule>): string
  {
    if categories == [] then ""
    else
      var last := categories[|categories| - 1];
      SectionsText(categories[..|categories| - 1], rules) + SectionText(last, CommandsIn(rules, last))
  }

  lemma SectionsTextStep(categories: seq<string>, n: int, rules: seq<CombinedRule>)
    requires 0 <= n < |categories|
    ensures SectionsText(categories[..n + 1], rules)
      == SectionsText(categories[..n], rules) + SectionText(categories[n], CommandsIn(rules, categories[n]))
  {
    assert categories[..n + 1][..n] == categories[..n];
  }

  /** The sections in sorted category order. */
  function SortedCategories(rules: seq<CombinedRule>): seq<string> {
    SortBy(Categories(rules), Identity)
  }

  /** The whole help text: the header, then one section per category in sorted order. */
  function HelpText(rules: seq<CombinedRule>): string
  {
    Header + SectionsText(SortedCategories(rules), rules)
  }

  /**
   * The sections are in strictly increasing category order, one per category of the rules.
   */
  lemma SectionsOrdered(rules: seq<CombinedRule>)
    ensures forall i, j :: 0 <= i < j < |SortedCategories(rules)| ==>
      StrLt(SortedCategories(rules)[i], SortedCategories(rules)[j])
    ensures forall c :: c in SortedCategories(rules) <==>
      exists k :: 0 <= k < |rules| && Category(rules[k].workflowId) == c
  {
    SortedCategoriesMembers(rules);
    SortedCategoriesStrict(rules);
    CategoriesExact(rules);
  }

  /** Sorting the categories keeps exactly the same categories. */
  lemma SortedCategoriesMembers(rules: seq<CombinedRule>)
    ensures forall c :: c in SortedCategories(rules) <==> c in Categories(rules)
  {
    var cats := SortedCategories(rules);
    forall c ensures c in cats <==> c in Categories(rules) {
      assert c in multiset(cats) <==> c in multiset(Categories(rules));
    }
  }

  /** The sorted categories are strictly increasing, since no category appears twice. */
  lemma SortedCategoriesStrict(rules: seq<CombinedRule>)
    ensures forall i, j :: 0 <= i < j < |SortedCategories(rules)| ==>
      StrLt(SortedCategories(rules)[i], SortedCategories(rules)[j])
  {
    var cats := SortedCategories(rules);
    CategoriesExact(rules);
    SortBySorted(Categories(rules), Identity);
    forall i, j | 0 <= i < j < |cats| ensures StrLt(cats[i], cats[j]) {
      assert StrLe(Identity(cats[i]), Identity(cats[j]));
      if cats[i] == cats[j] {
        DistinctCount(Categories(rules), cats[i]);
        TwiceCount(cats, i, j);
        assert false;
      }
    }
  }


  /** Within a section the commands are in non-decreasing name order, and they are all the category's commands. */
  lemma SectionCommandsSorted(rules: seq<CombinedRule>, category: string)
    ensures SortedBy(SortBy(CommandsIn(rules, category), NameOf), NameOf)
    ensures multiset(SortBy(CommandsIn(rules, category), NameOf)) == multiset(CommandsIn(rules, category))
  {
    SortBySorted(CommandsIn(rules, category), NameOf);
  }

  /** An element of a sequence without repetitions occurs once in its multiset. */
  lemma {:induction false} DistinctCount<T>(xs: seq<T>, x: T)
    requires forall i, j :: 0 <= i < j < |xs| ==> xs[i] != xs[j]
    ensures multiset(xs)[x] <= 1
  {
    if xs != [] {
      var init := xs[..|xs| - 1];
      assert xs == init + [xs[|xs| - 1]];
      DistinctCount(init, x);
      if x == xs[|xs| - 1] {
        assert x !in init;
      }
    }
  }

  /** An element at two positions occurs at least twice in the multiset. */
  lemma TwiceCount<T>(xs: seq<T>, i: int, j: int)
    requires 0 <= i < j < |xs| && xs[i] == xs[j]
    ensures multiset(xs)[xs[i]] >= 2
  {
    assert xs == xs[..i] + [xs[i]] + xs[i + 1..j] + [xs[j]] + xs[j + 1..];
  }

  // ---------------------------------------------------------------------------
  // The block
  // ---------------------------------------------------------------------------

  /** Appending `rules[i]` adds its category to the order unless it is already there. */
  lemma CategoriesStep(rules: seq<CombinedRule>, i: int)
    requires 0 <= i < |rules|
    ensures var c := Category(rules[i].workflowId);
      Categories(rules[..i + 1]) == if c in Categories(rules[..i]) then Categories(rules[..i]) else Categories(rules[..i]) + [c]
  {
    assert rules[..i + 1][..i] == rules[..i];
  }

  /** Appending `rules[i]` adds its command to its own category's list only. */
  lemma CommandsInStep(rules: seq<CombinedRule>, i: int, d: string)
    requires 0 <= i < |rules|
    ensures CommandsIn(rules[..i + 1], d)
      == CommandsIn(rules[..i], d) + if d == Category(rules[i].workflowId) then [CommandOf(rules[i])] else []
  {
    assert rules[..i + 1][..i] == rules[..i];
  }

  /** The trigger text of one rule (the loop over its groups in `execute`). */
  method FormatRule(rule: CombinedRule) returns (ruleFormat: string)
    ensures ruleFormat == RuleFormat(rule)
  {
    var conditions: seq<string> := [];
    var j := 0;
    while j < |rule.ruleGroups|
      invariant 0 <= j <= |rule.ruleGroups|
      invariant |conditions| == j
      invariant forall k :: 0 <= k < j ==> conditions[k] == GroupText(rule.ruleGroups[k])
    {
      var text := FormatRuleGroup(rule.ruleGroups[j]);
      conditions := conditions + [text];
      j := j + 1;
    }
    assert conditions == GroupTexts(rule.ruleGroups);
    ruleFormat := Join(Parenthesized(conditions), " and ");
  }

  /** `commands` and its key order `order` hold exactly the grouping of `rules`. */
  ghost predicate Grouping(commands: map<string, seq<Command>>, order: seq<string>, rules: seq<CombinedRule>)
  {
    && order == Categories(rules)
    && (forall c :: c in commands <==> c in order)
    && (forall c :: c in commands ==> commands[c] == CommandsIn(rules, c))
  }

  /** Adding the command of `rules[i]` to its category keeps the grouping. */
  lemma GroupingStep(commands: map<string, seq<Command>>, order: seq<string>, rules: seq<CombinedRule>, i: int)
    requires 0 <= i < |rules| && Grouping(commands, order, rules[..i])
    ensures var c := Category(rules[i].workflowId);
      var base := if c in commands then commands else commands[c := []];
      Grouping(base[c := base[c] + [CommandOf(rules[i])]],
               if c in commands then order else order + [c],
               rules[..i + 1])
  {
    var c := Category(rules[i].workflowId);
    var base := if c in commands then commands else commands[c := []];
    var next := base[c := base[c] + [CommandOf(rules[i])]];
    var nextOrder := if c in commands then order else order + [c];
    assert nextOrder == Categories(rules[..i + 1]) by {
      CategoriesStep(rules, i);
    }
    assert forall d :: d in next <==> d in nextOrder;
    assert base[c] == CommandsIn(rules[..i], c) by {
      if c !in commands {
        CommandsInOutside(rules[..i], c);
      }
    }
    forall d | d in next ensures next[d] == CommandsIn(rules[..i + 1], d) {
      CommandsInStep(rules, i, d);
      if d != c {
        assert d in commands;
      }
    }
  }

  /**
   * The first loop of `execute`: the `commands` dictionary, with its keys in insertion order
   * kept in `order`.
   */
  method GroupCommands(rules: seq<CombinedRule>) returns (commands: map<string, seq<Command>>, order: seq<string>)
    ensures Grouping(commands, order, rules)
  {
    commands := map[];
    order := [];
    var i := 0;
    while i < |rules|
      invariant 0 <= i <= |rules|
      invariant Grouping(commands, order, rules[..i])
    {
      var rule := rules[i];
      var category := Category(rule.workflowId);
      GroupingStep(commands, order, rules, i);
      if category !in commands {
        commands := commands[category := []];
        order := order + [category];
      }
      var ruleFormat := FormatRule(rule);
      commands := commands[category := commands[category] + [Command(rule.name, ruleFormat, rule.description)]];
      i := i + 1;
    }
    assert rules[..i] == rules;
  }

  /** The lines of one command appended to `text`: its name, its trigger and any description, then a blank line. */
  method AppendCommand(text: string, cmd: Command) returns (r: string)
    ensures r == text + CommandText(cmd)
  {
    r := text + CommandMark + cmd.name + "\n";
    Associative3(text, CommandMark, cmd.name, "\n");
    ghost var named := r;
    r := r + TriggerLabel + cmd.format + "\n";
    Associative3(named, TriggerLabel, cmd.format, "\n");
    ghost var triggered := r;
    if cmd.description != "" {
      r := r + DescriptionLabel + cmd.description + "\n";
      Associative3(triggered, DescriptionLabel, cmd.description, "\n");
    } else {
      assert r == triggered + "";
    }
    r := r + "\n";
    CommandTextParts(text, cmd);
  }

  /** One pass of the outer rendering loop of `execute`: appends a category's section. */
  method AppendSection(helpText: string, category: string, commands: seq<Command>) returns (text: string)
    ensures text == helpText + SectionText(category, commands)
  {
    var cmds := SortBy(commands, NameOf);
    var before := helpText + CategoryMark + Upper(category) + "\n";
    text := before;
    var m := 0;
    while m < |cmds|
      invariant 0 <= m <= |cmds|
      invariant text == before + CommandsText(cmds[..m])
    {
      var cmd := cmds[m];
      text := AppendCommand(text, cmd);
      CommandsTextStep(cmds, m);
      Associative(before, CommandsText(cmds[..m]), CommandText(cmd));
      m := m + 1;
    }
    assert cmds[..m] == cmds;
    text := text + "\n";
    Associative3(helpText, CategoryMark, Upper(category), "\n");
    Associative3(helpText, TitleLine(category), CommandsText(cmds), "\n");
  }

  /** `execute` over the active rules, in the registry's order; the bot sender is given. */
  method GenerateHelp(rules: seq<CombinedRule>, bot: ChatSender) returns (response: ImMessage)
    ensures response == ImMessage(bot, [TextElement(HelpText(rules))])
  {
    var commands, order := GroupCommands(rules);
    var helpText := Header;
    var categories := SortBy(order, Identity);
    forall c | c in categories ensures c in commands {
      assert c in multiset(categories);
    }
    var n := 0;
    while n < |categories|
      invariant 0 <= n <= |categories|
      invariant helpText == Header + SectionsText(categories[..n], rules)
    {
      var category := categories[n];
      assert commands[category] == CommandsIn(rules, category);
      ghost var previous := helpText;
      helpText := AppendSection(helpText, category, commands[category]);
      SectionsTextStep(categories, n, rules);
      Associative(Header, SectionsText(categories[..n], rules), SectionText(category, commands[category]));
      n := n + 1;
    }
    assert categories[..n] == categories;
    response := ImMessage(bot, [TextElement(helpText)]);
  }
}
