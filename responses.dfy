/** The fixed strings of the game and the pure choices between them:
    command dispatch, the prompt, the help text, the door-missing reply,
    and the replies to look and drink. */
module Responses {
  import opened AsciiText
  import opened Collaborators

  // ---------------------------------------------------------------------------
  // Commands

  /** The outcome of dispatching a command string. */
  datatype Command = North | South | Look | Inventory | Drink | Help | Unknown {
    /** The commands that may change the position. */
    predicate Move() { this == North || this == South }
  }

  /** The commands that consult the player. */
  predicate NeedsPlayer(c: Command) { c == Look || c == Inventory || c == Drink }

  /** The six commands, in the order the prompt and the help text list them. */
  const Commands: seq<Command> := [North, South, Look, Inventory, Drink, Help]

  /** The letter that names a command. */
  function Letter(c: Command): (u: char)
    requires c != Unknown
    ensures IsUpper(u)
  {
    match c
    case North => 'N'
    case South => 'S'
    case Look => 'L'
    case Inventory => 'I'
    case Drink => 'D'
    case Help => 'H'
  }

  /** Dispatch on the upper-cased command: each command is its letter in
      either case, and every other string is unknown. */
  function ParseCommand(cmd: string): (c: Command)
    ensures c == North <==> cmd == "N" || cmd == "n"
    ensures c == South <==> cmd == "S" || cmd == "s"
    ensures c == Look <==> cmd == "L" || cmd == "l"
    ensures c == Inventory <==> cmd == "I" || cmd == "i"
    ensures c == Drink <==> cmd == "D" || cmd == "d"
    ensures c == Help <==> cmd == "H" || cmd == "h"
  {
    UpperIsLetter(cmd, 'N');
    UpperIsLetter(cmd, 'S');
    UpperIsLetter(cmd, 'L');
    UpperIsLetter(cmd, 'I');
    UpperIsLetter(cmd, 'D');
    UpperIsLetter(cmd, 'H');
    var u := ToUpper(cmd);
    if u == "N" then North
    else if u == "S" then South
    else if u == "L" then Look
    else if u == "I" then Inventory
    else if u == "D" then Drink
    else if u == "H" then Help
    else Unknown
  }

  /** The letter of each command, in either case, dispatches back to that command. */
  lemma {:induction false} LetterRoundTrip(c: Command)
    requires c != Unknown
    ensures ParseCommand([Letter(c)]) == c
    ensures ParseCommand([LowerChar(Letter(c))]) == c
  {
    match c
    case North =>
    case South =>
    case Look =>
    case Inventory =>
    case Drink =>
    case Help =>
  }

  /** The reply to an unrecognised command. */
  const WhatReply := "What?\n"

  // ---------------------------------------------------------------------------
  // Prompt and help

  /** The letters of the commands from index k of Commands on, separated by commas. */
  function PromptLetters(k: nat): string
    requires k < |Commands|
    decreases |Commands| - k
  {
    if k == |Commands| - 1 then [Letter(Commands[k])]
    else [Letter(Commands[k])] + "," + PromptLetters(k + 1)
  }

  /** The command prompt: it advertises the letters of the six commands, in order. */
  function GetInstructionsString(): (r: string)
    ensures r == " INSTRUCTIONS (" + PromptLetters(0) + ") > "
  {
    " INSTRUCTIONS (N,S,L,I,D,H) > "
  }

  /** What separates a command's letter from its description in the help text. */
  const Dash := " - "

  // The six help lines, one per command.
  const NorthHelp := "N" + Dash + "Moves the player north if there is an available room.\n"
  const SouthHelp := "S" + Dash + "Moves the player south if there is an available room.\n"
  const LookHelp := "L" + Dash + "Look for items in your current room.\n"
  const InventoryHelp := "I" + Dash + "Access your inventory of items currently possessed.\n"
  const DrinkHelp := "D" + Dash + "Drink the mixture to decide the fate of your quest...\n"
  const HelpHelp := "H" + Dash + "Help\n"

  /** The help line of a command: its letter, a dash, and what it does,
      ending the line. An unknown command has no help line. */
  function HelpLine(c: Command): (r: string)
    ensures c != Unknown ==> [Letter(c)] + Dash <= r && r[|r| - 1] == '\n'
    ensures c == Unknown ==> r == ""
  {
    match c
    case North => NorthHelp
    case South => SouthHelp
    case Look => LookHelp
    case Inventory => InventoryHelp
    case Drink => DrinkHelp
    case Help => HelpHelp
    case Unknown => ""
  }

  /** The help lines of the first n commands of Commands, in order. */
  function HelpLines(n: nat): string
    requires n <= |Commands|
  {
    if n == 0 then "" else HelpLines(n - 1) + HelpLine(Commands[n - 1])
  }

  /** The help lines of fewer commands open those of more commands. */
  lemma {:induction false} HelpLinesPrefix(m: nat, n: nat)
    requires m <= n <= |Commands|
    ensures HelpLines(m) <= HelpLines(n)
    decreases n
  {
    if m < n {
      HelpLinesPrefix(m, n - 1);
    }
  }

  /** The help text, built line by line: one help line for each of the six
      commands, in the order of Commands (the order of the prompt). */
  function DisplayHelp(): (r: string)
    ensures r == HelpLines(|Commands|)
  {
    assert HelpLines(6) == HelpLines(5) + HelpLine(Commands[5]);
    var msg := "";
    var msg := msg + NorthHelp;
    var msg := msg + SouthHelp;
    var msg := msg + LookHelp;
    var msg := msg + InventoryHelp;
    var msg := msg + DrinkHelp;
    var msg := msg + HelpHelp;
    msg
  }

  /** A prefix of a text's middle part, after the same opening, is a prefix of the text. */
  lemma PrefixOfMiddle(opening: string, start: string, middle: string, text: string)
    requires start <= middle && opening + middle <= text
    ensures opening + start <= text
  {
    assert forall j :: |opening| <= j < |opening + start| ==> (opening + start)[j] == (opening + middle)[j];
  }

  /** The help text names every command: at the start of one of its lines
      stand the command's letter and the dash. */
  lemma HelpNamesEveryCommand(c: Command)
    requires c != Unknown
    ensures exists k :: 0 <= k < |Commands| && HelpLines(k) + ([Letter(c)] + Dash) <= DisplayHelp()
  {
    CommandsAreComplete(c);
    var k :| 0 <= k < |Commands| && Commands[k] == c;
    HelpLinesPrefix(k + 1, |Commands|);
    assert HelpLines(k + 1) == HelpLines(k) + HelpLine(c);
    PrefixOfMiddle(HelpLines(k), [Letter(c)] + Dash, HelpLine(c), HelpLines(|Commands|));
  }

  /** Every known command appears in Commands, and exactly once, so the
      prompt and the help text each cover every command once. */
  lemma CommandsAreComplete(c: Command)
    requires c != Unknown
    ensures exists k :: 0 <= k < |Commands| && Commands[k] == c
    ensures forall k, l :: 0 <= k < l < |Commands| ==> Commands[k] != Commands[l]
  {
    match c
    case North => assert Commands[0] == c;
    case South => assert Commands[1] == c;
    case Look => assert Commands[2] == c;
    case Inventory => assert Commands[3] == c;
    case Drink => assert Commands[4] == c;
    case Help => assert Commands[5] == c;
  }

  // ---------------------------------------------------------------------------
  // Movement

  /** The reply to a move through a door that is not there; it differs from
      the empty reply of a successful move. */
  function DoorDoesNotExist(): (r: string)
    ensures r != ""
  {
    "A door in that direction does not exist.\n"
  }

  // ---------------------------------------------------------------------------
  // Look

  /** The opening line of the replies to finding coffee or cream. */
  const SomethingHere := "There might be something here...\n"
  const FoundCoffee := SomethingHere + "You have found a delicious cup of coffee."
  const FoundCream := SomethingHere + "You found some creamy cream!\n"
  const FoundSugar := "You have found some sugar cubes."
  const FoundNothing := "You have found nothing!"

  /** The reply to looking in a room that holds `item`. */
  function LookMessage(item: Item): (r: string)
    ensures r == FoundNothing <==> item == NONE
  {
    match item
    case COFFEE => FoundCoffee
    case CREAM => FoundCream
    case SUGAR => FoundSugar
    case NONE => FoundNothing
  }

  /** Each item kind has its own reply. */
  lemma LookMessageInjective(a: Item, b: Item)
    requires LookMessage(a) == LookMessage(b)
    ensures a == b
  {
  }

  // ---------------------------------------------------------------------------
  // Drink

  // The inventory report that opens every reply to drink: one line per
  // ingredient, saying whether the player holds it.
  const HaveCoffee := "You have a cup of delicious coffee.\n"
  const NoCoffee := "YOU HAVE NO COFFEE!\n"
  const HaveCream := "You have some fresh cream.\n"
  const NoCream := "YOU HAVE NO CREAM!\n"
  const HaveSugar := "You have some tasty sugar.\n"
  const NoSugar := "YOU HAVE NO SUGAR!\n"

  function CoffeeLine(has: bool): string { if has then HaveCoffee else NoCoffee }
  function CreamLine(has: bool): string { if has then HaveCream else NoCream }
  function SugarLine(has: bool): string { if has then HaveSugar else NoSugar }

  /** The report of the three possession checks, in the order coffee, cream, sugar. */
  function InventoryReport(coffee: bool, cream: bool, sugar: bool): string {
    CoffeeLine(coffee) + CreamLine(cream) + SugarLine(sugar)
  }

  // The verdicts that close the replies, after a blank line.
  const WinVerdict := "You drink the beverage and are ready to study!\n" + "You win!\n"
  const CannotStudy := "The air is invigorating, but not invigorating enough. You cannot study.\n" + "You lose!\n"
  const NoneVerdict := "You drink the air, as you have no coffee, sugar, or cream.\n" + CannotStudy
  const SugarOnlyVerdict := "You drink the air, as you have no coffee, or cream.\n" + CannotStudy
  const CreamOnlyVerdict := "You drink the air, as you have no coffee, or sugar.\n" + CannotStudy
  const CoffeeOnlyVerdict := "You drink the air, as you have no sugar, or cream.\n" + CannotStudy
  const CoffeeCreamVerdict := "You drink the air, as you have no sugar.\n" + CannotStudy
  const CoffeeSugarVerdict := "You drink the air, as you have no cream.\n" + CannotStudy
  const CreamSugarVerdict := "You drink the air, as you have no coffee. \n" + CannotStudy

  // The eight replies to drink, one per combination of ingredients held.
  const DrinkAll := HaveCoffee + HaveCream + HaveSugar + "\n" + WinVerdict
  const DrinkNone := NoCoffee + NoCream + NoSugar + "\n" + NoneVerdict
  const DrinkSugarOnly := NoCoffee + NoCream + HaveSugar + "\n" + SugarOnlyVerdict
  const DrinkCreamOnly := NoCoffee + HaveCream + NoSugar + "\n" + CreamOnlyVerdict
  const DrinkCoffeeOnly := HaveCoffee + NoCream + NoSugar + "\n" + CoffeeOnlyVerdict
  const DrinkCoffeeCream := HaveCoffee + HaveCream + NoSugar + "\n" + CoffeeCreamVerdict
  const DrinkCoffeeSugar := HaveCoffee + NoCream + HaveSugar + "\n" + CoffeeSugarVerdict
  const DrinkCreamSugar := NoCoffee + HaveCream + HaveSugar + "\n" + CreamSugarVerdict

  /** The lengths of the eight replies: the win reply is the shortest, and
      only three pairs of lose replies share a length. */
  lemma DrinkReplyLengths()
    ensures |DrinkAll| == 147
    ensures |DrinkNone| == 200 && |DrinkCreamSugar| == 200
    ensures |DrinkSugarOnly| == 201 && |DrinkCreamOnly| == 201
    ensures |DrinkCoffeeOnly| == 208
    ensures |DrinkCoffeeCream| == 206 && |DrinkCoffeeSugar| == 206
  {
  }

  /** The replies of equal length tell the cream apart: their coffee lines
      agree and their cream lines differ in the second letter. */
  lemma CreamLineTellsApart()
    ensures DrinkNone != DrinkCreamSugar
    ensures DrinkSugarOnly != DrinkCreamOnly
    ensures DrinkCoffeeCream != DrinkCoffeeSugar
  {
    assert DrinkNone[|NoCoffee| + 1] != DrinkCreamSugar[|NoCoffee| + 1];
    assert DrinkSugarOnly[|NoCoffee| + 1] != DrinkCreamOnly[|NoCoffee| + 1];
    assert DrinkCoffeeCream[|HaveCoffee| + 1] != DrinkCoffeeSugar[|HaveCoffee| + 1];
  }

  /** The reply to drink, chosen from the three possession checks alone. It
      is never empty (the final fallback cannot be reached), and it is the
      win reply exactly when the player holds coffee, cream and sugar. */
  function DrinkMessage(coffee: bool, cream: bool, sugar: bool): (r: string)
    ensures r != ""
    ensures r == DrinkAll <==> coffee && cream && sugar
  {
    DrinkReplyLengths();
    if coffee && cream && sugar then DrinkAll
    else if !coffee && !cream && !sugar then DrinkNone
    else if !coffee && !cream && sugar then DrinkSugarOnly
    else if !coffee && cream && !sugar then DrinkCreamOnly
    else if coffee && !cream && !sugar then DrinkCoffeeOnly
    else if coffee && cream && !sugar then DrinkCoffeeCream
    else if coffee && !cream && sugar then DrinkCoffeeSugar
    else if !coffee && cream && sugar then DrinkCreamSugar
    else ""
  }

  /** Every reply to drink opens with the inventory report and a blank line. */
  lemma {:induction false} DrinkOpensWithReport(coffee: bool, cream: bool, sugar: bool)
    ensures InventoryReport(coffee, cream, sugar) + "\n" <= DrinkMessage(coffee, cream, sugar)
  {
  }

  /** The eight combinations of ingredients give eight different replies. */
  lemma DrinkMessageInjective(coffee: bool, cream: bool, sugar: bool, coffee': bool, cream': bool, sugar': bool)
    requires DrinkMessage(coffee, cream, sugar) == DrinkMessage(coffee', cream', sugar')
    ensures coffee == coffee' && cream == cream' && sugar == sugar'
  {
    DrinkReplyLengths();
    CreamLineTellsApart();
  }
}
