/**
 * The `dice_roll` block (`kirara_ai/workflow/implementations/blocks/game/dice.py`): it reads a
 * command such as ".roll 3d6" at the start of a message, rolls the dice and replies with the
 * rolls and their sum. The random numbers are passed in as `draw(i, sides)`, the value of the
 * `i`-th call of `random.randint(1, sides)`.
 */
module Dice {
  import opened Wrappers
  import opened Text
  import opened Numerals
  import opened Messages

  /** The most dice one command may roll. */
  const MaxDice := 100

  const IdeographicFullStop := '\U{3002}'

  /** The pieces consumed by a successful `re.match` of the pattern `^[.。]roll\s*(\d+)?d(\d+)`. */
  datatype DiceMatch = DiceMatch(lead: char, spaces: string, countDigits: string, sidesDigits: string)
  {
    /** The text the pattern consumed. */
    function Consumed(): string {
      [lead] + "roll" + Body()
    }

    /** What follows the command word. */
    function Body(): string {
      spaces + countDigits + "d" + sidesDigits
    }

    /** `int(match.group(1) or "1")`. */
    function Count(): nat
      requires AllDigits(countDigits)
    {
      if countDigits == [] then 1 else ParseDigits(countDigits)
    }

    /** `int(match.group(2))`. */
    function Sides(): nat
      requires AllDigits(sidesDigits)
    {
      ParseDigits(sidesDigits)
    }
  }

  /** The length of the longest whitespace prefix of `s` (a greedy `\s*`). */
  function SpaceRun(s: string): (n: nat)
    ensures n <= |s| && IsBlank(s[..n])
    ensures n == |s| || !IsSpace(s[n])
  {
    if s != [] && IsSpace(s[0]) then
      var n := 1 + SpaceRun(s[1..]);
      assert s[..n] == [s[0]] + s[1..][..n - 1];
      n
    else 0
  }

  /** The length of the longest digit prefix of `s` (a greedy `\d*`). */
  function DigitRun(s: string): (n: nat)
    ensures n <= |s| && AllDigits(s[..n])
    ensures n == |s| || !IsDigit(s[n])
  {
    if s != [] && IsDigit(s[0]) then
      var n := 1 + DigitRun(s[1..]);
      assert s[..n] == [s[0]] + s[1..][..n - 1];
      n
    else 0
  }

  /** The whitespace run in front of a non-space is exactly that run. */
  lemma {:induction false} SpaceRunOf(a: string, b: string)
    requires IsBlank(a) && (b == [] || !IsSpace(b[0]))
    ensures SpaceRun(a + b) == |a|
  {
    if a != [] {
      assert (a + b)[1..] == a[1..] + b;
      SpaceRunOf(a[1..], b);
    } else {
      assert a + b == b;
    }
  }

  /** The digit run in front of a non-digit is exactly that run. */
  lemma {:induction false} DigitRunOf(a: string, b: string)
    requires AllDigits(a) && (b == [] || !IsDigit(b[0]))
    ensures DigitRun(a + b) == |a|
  {
    if a != [] {
      assert (a + b)[1..] == a[1..] + b;
      DigitRunOf(a[1..], b);
    } else {
      assert a + b == b;
    }
  }

  /** A prefix `a` of `s` followed by a prefix `b` of the rest is the prefix `a + b` of `s`. */
  lemma PrefixThen(s: string, a: string, b: string)
    requires |a| <= |s| && s[..|a|] == a
    requires |b| <= |s| - |a| && s[|a|..][..|b|] == b
    ensures s[..|a| + |b|] == a + b
  {
    assert s[..|a| + |b|] == s[..|a|] + s[|a|..][..|b|];
  }

  /** `d(\d+)` at the start of `s`: the digits of the sides. */
  function SidesPart(s: string): (r: Option<string>)
    ensures r.Some? ==> AllDigits(r.value) && |r.value| >= 1
    ensures r.Some? ==> 1 + |r.value| <= |s| && s[..1 + |r.value|] == "d" + r.value
    ensures r.Some? ==> 1 + |r.value| == |s| || !IsDigit(s[1 + |r.value|])
  {
    if s == [] || s[0] != 'd' then None
    else
      var n := DigitRun(s[1..]);
      if n == 0 then None
      else
        assert s[..1 + n] == [s[0]] + s[1..][..n];
        Some(s[1..][..n])
  }

  /** The runs found after the command word, read back to back, are a prefix of it. */
  lemma BodyIsPrefix(rest: string, i: nat, n: nat, sidesDigits: string)
    requires i + n + 1 + |sidesDigits| <= |rest|
    requires rest[i + n..][..1 + |sidesDigits|] == "d" + sidesDigits
    ensures rest[i..][..n] == rest[i..i + n]
    ensures rest[..i] + rest[i..i + n] + "d" + sidesDigits == rest[..i + n + 1 + |sidesDigits|]
  {
    assert rest[..i + n + 1 + |sidesDigits|] == rest[..i] + rest[i..i + n] + rest[i + n..][..1 + |sidesDigits|];
    Associative(rest[..i] + rest[i..i + n], "d", sidesDigits);
  }

  /** `\s*(\d+)?d(\d+)` at the start of `rest`, the text after the command word. */
  function MatchRest(lead: char, rest: string): (r: Option<DiceMatch>)
    ensures r.Some? ==> r.value.lead == lead
    ensures r.Some? ==>
      var m := r.value;
      && IsBlank(m.spaces)
      && AllDigits(m.countDigits)
      && AllDigits(m.sidesDigits) && |m.sidesDigits| >= 1
      && |m.Body()| <= |rest| && rest[..|m.Body()|] == m.Body()
      && (|m.Body()| == |rest| || !IsDigit(rest[|m.Body()|]))
  {
    var i := SpaceRun(rest);
    var n := DigitRun(rest[i..]);
    match SidesPart(rest[i + n..])
    case None => None
    case Some(sidesDigits) =>
      BodyIsPrefix(rest, i, n, sidesDigits);
      Some(DiceMatch(lead, rest[..i], rest[i..i + n], sidesDigits))
  }

  /** The lead, the command word and the matched body, read back to back, are a prefix of the command. */
  lemma ConsumedIsPrefix(command: string, m: DiceMatch)
    requires |command| >= 5 && command[0] == m.lead && command[1..5] == "roll"
    requires |m.Body()| <= |command| - 5 && command[5..][..|m.Body()|] == m.Body()
    ensures |m.Consumed()| == 5 + |m.Body()|
    ensures command[..|m.Consumed()|] == m.Consumed()
  {
    assert command[..5] == [m.lead] + "roll";
    PrefixThen(command, command[..5], m.Body());
  }

  /**
   * `re.match(r"^[.。]roll\s*(\d+)?d(\d+)", command)`. The three runs are greedy and their
   * character classes are disjoint from what follows each, so the match is the unique
   * decomposition below and backtracking never finds another.
   */
  function ParseDice(command: string): (r: Option<DiceMatch>)
    ensures r.Some? ==>
      var m := r.value;
      && (m.lead == '.' || m.lead == IdeographicFullStop)
      && IsBlank(m.spaces)
      && AllDigits(m.countDigits)
      && AllDigits(m.sidesDigits) && |m.sidesDigits| >= 1
      && |m.Consumed()| <= |command| && command[..|m.Consumed()|] == m.Consumed()
      && (|m.Consumed()| == |command| || !IsDigit(command[|m.Consumed()|]))
  {
    if |command| < 5 || !(command[0] == '.' || command[0] == IdeographicFullStop) || command[1..5] != "roll" then
      None
    else
      match MatchRest(command[0], command[5..])
      case None => None
      case Some(m) =>
        ConsumedIsPrefix(command, m);
        Some(m)
  }

  /** `d` and a run of digits are matched up to the first non-digit. */
  lemma SidesPartComplete(sidesDigits: string, tail: string)
    requires AllDigits(sidesDigits) && |sidesDigits| >= 1
    requires tail == [] || !IsDigit(tail[0])
    ensures SidesPart("d" + sidesDigits + tail) == Some(sidesDigits)
  {
    var s := "d" + sidesDigits + tail;
    assert s[1..] == sidesDigits + tail;
    DigitRunOf(sidesDigits, tail);
    assert s[1..][..|sidesDigits|] == sidesDigits;
  }

  /** The text after the command word is matched piece by piece. */
  lemma MatchRestComplete(m: DiceMatch, tail: string)
    requires IsBlank(m.spaces) && AllDigits(m.countDigits)
    requires AllDigits(m.sidesDigits) && |m.sidesDigits| >= 1
    requires tail == [] || !IsDigit(tail[0])
    ensures MatchRest(m.lead, m.Body() + tail) == Some(m)
  {
    var spaces, countDigits, sidesDigits := m.spaces, m.countDigits, m.sidesDigits;
    var sidesPart := "d" + sidesDigits + tail;
    var afterSpaces := countDigits + sidesPart;
    var rest := m.Body() + tail;
    Associative(spaces + countDigits, "d", sidesDigits);
    Associative(spaces + countDigits, "d" + sidesDigits, tail);
    Associative(spaces, countDigits, sidesPart);
    assert rest == spaces + afterSpaces;
    SpaceRunOf(spaces, afterSpaces);
    var i := |spaces|;
    assert rest[i..] == afterSpaces && rest[..i] == spaces;
    DigitRunOf(countDigits, sidesPart);
    var n := |countDigits|;
    assert afterSpaces[n..] == sidesPart && afterSpaces[..n] == countDigits;
    assert rest[i + n..] == sidesPart && rest[i..i + n] == countDigits;
    SidesPartComplete(sidesDigits, tail);
  }

  /**
   * Every command of the documented shape is recognised with its digits, whatever text follows
   * as long as it does not continue the sides' digits.
   */
  lemma ParseDiceComplete(m: DiceMatch, tail: string)
    requires m.lead == '.' || m.lead == IdeographicFullStop
    requires IsBlank(m.spaces) && AllDigits(m.countDigits)
    requires AllDigits(m.sidesDigits) && |m.sidesDigits| >= 1
    requires tail == [] || !IsDigit(tail[0])
    ensures ParseDice(m.Consumed() + tail) == Some(m)
  {
    var rest := m.Body() + tail;
    var command := m.Consumed() + tail;
    Associative([m.lead] + "roll", m.Body(), tail);
    assert command == [m.lead] + "roll" + rest;
    assert command[1..5] == "roll";
    assert command[5..] == rest;
    MatchRestComplete(m, tail);
  }

  /** The i-th roll is `draw(i, sides)`; a fair source draws from `[1, sides]` whenever that is non-empty. */
  ghost predicate FairDraws(draw: (nat, nat) -> int) {
    forall i: nat, sides: nat :: sides >= 1 ==> 1 <= draw(i, sides) <= sides
  }

  /** `[random.randint(1, sides) for _ in range(count)]`. */
  function Rolls(count: nat, sides: nat, draw: (nat, nat) -> int): (rolls: seq<int>)
    ensures |rolls| == count
  {
    seq(count, i requires 0 <= i < count => draw(i, sides))
  }

  /** Exactly `count` rolls, each between 1 and `sides`. */
  lemma RollsInRange(count: nat, sides: nat, draw: (nat, nat) -> int)
    requires FairDraws(draw) && sides >= 1
    ensures |Rolls(count, sides, draw)| == count
    ensures forall k :: 0 <= k < count ==> 1 <= Rolls(count, sides, draw)[k] <= sides
  {
    forall k | 0 <= k < count ensures 1 <= Rolls(count, sides, draw)[k] <= sides {
      assert Rolls(count, sides, draw)[k] == draw(k, sides);
    }
  }

  function Sum(xs: seq<int>): int {
    if xs == [] then 0 else Sum(xs[..|xs| - 1]) + xs[|xs| - 1]
  }

  /** `map(str, rolls)`. */
  function RollTexts(rolls: seq<int>): (r: seq<string>)
    ensures |r| == |rolls|
    ensures forall k :: 0 <= k < |r| ==> r[k] == Str(PyInt(rolls[k]))
  {
    seq(|rolls|, k requires 0 <= k < |rolls| => Str(PyInt(rolls[k])))
  }

  /** The start of the reply: the dice thrown, as "{count}d{sides}". */
  function Heading(count: nat, sides: nat): string {
    "\U{1F3B2} Rolled " + NatToString(count) + "d" + NatToString(sides) + ": "
  }

  /** The reply text: the dice, the rolls joined by " + ", and the total when more than one die was rolled. */
  function Details(count: nat, sides: nat, rolls: seq<int>): string {
    Heading(count, sides) + Join(RollTexts(rolls), " + ")
      + (if count > 1 then " = " + Str(PyInt(Sum(rolls))) else "")
  }

  /** A single die shows its roll and no total. */
  lemma DetailsOneDie(sides: nat, roll: int)
    ensures Details(1, sides, [roll]) == Heading(1, sides) + Str(PyInt(roll))
  {
    var text := Str(PyInt(roll));
    assert RollTexts([roll]) == [text];
    assert Join([text], " + ") == text;
    assert Heading(1, sides) + text + "" == Heading(1, sides) + text;
  }

  /** No dice show nothing after the heading. */
  lemma DetailsNoDice(sides: nat)
    ensures Details(0, sides, []) == Heading(0, sides)
  {
    assert RollTexts([]) == [];
    assert Heading(0, sides) + "" + "" == Heading(0, sides);
  }

  /** A message from the bot holding one text element. */
  function Reply(bot: ChatSender, text: string): ImMessage {
    ImMessage(bot, [TextElement(text)])
  }

  /** Python's `random.randint(1, 0)` raises `ValueError` for an empty range. */
  const EmptyRangeError := "ValueError: empty range for randrange()"

  /**
   * `DiceRoll.execute`: the reply to a message whose text is `view.content(message.elements)`.
   * A Failure is the `ValueError` of rolling at least one die with zero sides.
   */
  function DiceRoll(message: ImMessage, view: MessageView, draw: (nat, nat) -> int, bot: ChatSender): (r: Result<ImMessage>)
    ensures r.Success? ==> r.value.sender == bot && |r.value.elements| == 1 && r.value.elements[0].TextElement?
    ensures r.Failure? <==>
      var parsed := ParseDice(view.content(message.elements));
      parsed.Some? && 1 <= parsed.value.Count() <= MaxDice && parsed.value.Sides() == 0
  {
    match ParseDice(view.content(message.elements))
    case None => Success(Reply(bot, "Invalid dice command"))
    case Some(m) =>
      var count := m.Count();
      var sides := m.Sides();
      if count > MaxDice then Success(Reply(bot, "Too many dice (max 100)"))
      else if count >= 1 && sides == 0 then Failure(EmptyRangeError)
      else Success(Reply(bot, Details(count, sides, Rolls(count, sides, draw))))
  }

  /** A message that does not start with the command gets the fixed refusal. */
  lemma NotACommand(message: ImMessage, view: MessageView, draw: (nat, nat) -> int, bot: ChatSender)
    requires var text := view.content(message.elements); text == [] || (text[0] != '.' && text[0] != IdeographicFullStop)
    ensures DiceRoll(message, view, draw, bot) == Success(Reply(bot, "Invalid dice command"))
  {
  }

  lemma DotRoll()
    ensures ['.'] + "roll" == ".roll"
  {
    assert (['.'] + "roll")[1..] == "roll";
  }

  /** The plain command ".roll{count}d{sides}" reads back as `count` dice of `sides` sides. */
  lemma PlainCommandParses(count: nat, sides: nat)
    ensures ParseDice(".roll" + NatToString(count) + "d" + NatToString(sides)).Some?
    ensures var m := ParseDice(".roll" + NatToString(count) + "d" + NatToString(sides)).value;
      m.Count() == count && m.Sides() == sides
  {
    var countDigits, sidesDigits := NatToString(count), NatToString(sides);
    var m := DiceMatch('.', "", countDigits, sidesDigits);
    ParseDiceComplete(m, "");
    var consumed := m.Consumed();
    assert consumed + "" == consumed;
    DotRoll();
    assert "" + countDigits == countDigits;
    assert consumed == ".roll" + (countDigits + "d" + sidesDigits);
    Associative(".roll", countDigits + "d", sidesDigits);
    Associative(".roll", countDigits, "d");
    ParseNatToString(count);
    ParseNatToString(sides);
  }

  /**
   * The limit is inclusive: ".roll100d{s}" rolls a hundred dice and shows their total, while
   * ".roll101d{s}" is refused without rolling.
   */
  lemma DiceLimit(view: MessageView, message: ImMessage, draw: (nat, nat) -> int, bot: ChatSender, count: nat, sides: nat)
    requires sides >= 1
    requires view.content(message.elements) == ".roll" + NatToString(count) + "d" + NatToString(sides)
    ensures count <= MaxDice ==>
      DiceRoll(message, view, draw, bot) == Success(Reply(bot, Details(count, sides, Rolls(count, sides, draw))))
    ensures count > MaxDice ==>
      DiceRoll(message, view, draw, bot) == Success(Reply(bot, "Too many dice (max 100)"))
  {
    PlainCommandParses(count, sides);
  }
}
