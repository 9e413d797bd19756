# Coffee Maker Quest: the game-state machine

This project models `CoffeeMakerQuestImpl`, the engine of the Coffee Maker Quest
text adventure, in Dafny. The engine keeps three pieces of state:

- a registry of rooms, ordered south to north;
- the index of the room the player is in (`-1` while unset);
- a flag saying whether the player has drunk.

It builds the map from rooms whose adjectives and furnishings must be unique,
ignoring case. It moves the player one room at a time and hands out the item of
the current room. It settles the game with one of eight replies to drinking. It
also answers the help, inventory and prompt requests.

Modules, one per file:

- `AsciiText` (`text.dfy`): ASCII upper-casing (`toUpperCase`) and
  case-insensitive comparison (`equalsIgnoreCase`).
- `Collaborators` (`collaborators.dfy`): `Room` and `Player`, reduced to what
  the engine reads and calls. A room has a fixed adjective, furnishing and item,
  plus two door labels. A player has three possession flags and an inventory
  summary. A ghost log records every `addItem` call.
- `Registry` (`registry.dfy`): the uniqueness rule as predicates (`Collides`,
  `Clashes`, `Distinct`) and the lemmas showing the scan keeps it.
- `Responses` (`responses.dfy`): every string the engine returns, and the pure
  choices between them. This covers command dispatch, the prompt, the help
  text, the missing-door reply and the replies to look and drink.
- `Quest` (`quest.dfy`): the class `CoffeeMakerQuest`, with the three fields
  and the engine's methods. Its object invariant `Valid()` says three things. The
  position never lies north of the last room. Once a room exists, the position
  is one of the rooms. No two rooms collide.
- `Scenarios` (`scenarios.dfy`): client methods that build the first three
  rooms of the game's map, as the repository's unit tests set them up. They then
  replay the tests' situations against the contracts alone.

The engine performs no I/O. `Room` and `Player` are outside collaborators, so
their state is given, and the engine's calls to them are modelled by their
effect on that state.

Two consequences of the code's bounds on the position:

- `moveNorth` refuses only when `currRoom >= rooms.size() - 1`. So from the
  unset position -1 with at least one room, the player moves to room 0. From
  -2 with no rooms, the position moves back to -1.
- `moveSouth` refuses only at 0. So before any room exists, the unset position
  can take any negative value: -1, then -2 and below after moves south. Once a
  room exists the position is always one of the rooms. `addFirstRoom` sets it
  to 0, `moveSouth` stops at 0 and `moveNorth` stops at the last room. The
  object invariant `Valid()` states this.

## Model

| member | source | states |
|---|---|---|
| AsciiText.ToUpper | src/CoffeeMakerQuestImpl.java:151 | The upper-cased string has the input's length, and each character is that input character upper-cased. |
| AsciiText.EqualsIgnoreCase | src/CoffeeMakerQuestImpl.java:81 | Two strings are equal ignoring case exactly when they have the same length and agree character by character once upper-cased. |
| AsciiText.EqualsIgnoreCaseIsUpperEquality | src/CoffeeMakerQuestImpl.java:81 | Comparing ignoring case is the same as comparing the upper-cased strings. |
| AsciiText.EqualsIgnoreCaseIsEquivalence | src/CoffeeMakerQuestImpl.java:81 | Case-insensitive equality is reflexive, symmetric and transitive. |
| AsciiText.UpperIsLetter | src/CoffeeMakerQuestImpl.java:151-170 | A string upper-cases to a single letter exactly when it is that letter in upper or lower case. |
| Registry.MemberClashes | src/CoffeeMakerQuestImpl.java:80-84 | A room already in the registry always clashes with it, so it can never be added twice. |
| Registry.CollidesSymmetric | src/CoffeeMakerQuestImpl.java:81 | Whether two rooms collide does not depend on which one is already registered. |
| Registry.AppendKeepsDistinct | src/CoffeeMakerQuestImpl.java:80-87 | For a distinct registry, appending a room keeps it distinct if and only if the scan finds no clash. |
| Registry.DistinctHasNoDuplicates | src/CoffeeMakerQuestImpl.java:116-121 | In a distinct registry a room reference sits at one index only. |
| Responses.Letter | src/CoffeeMakerQuestImpl.java:152-169 | Each command is named by an upper-case letter. |
| Responses.ParseCommand | src/CoffeeMakerQuestImpl.java:151-173 | Each of N, S, L, I, D and H is selected exactly by its letter in upper or lower case. Every other string, including longer and empty ones, falls through to the unknown command. |
| Responses.LetterRoundTrip | src/CoffeeMakerQuestImpl.java:151-171 | The letter of each command, in either case, dispatches back to that command. |
| Responses.GetInstructionsString | src/CoffeeMakerQuestImpl.java:132-134 | The prompt lists the six command letters, comma-separated, in the order N, S, L, I, D, H. |
| Responses.HelpLine | src/CoffeeMakerQuestImpl.java:257-262 | The help line of each command opens with that command's letter and " - ", and ends the line. |
| Responses.HelpLinesPrefix | src/CoffeeMakerQuestImpl.java:256-263 | Each append extends the help text, so the lines of earlier commands stay at its start. |
| Responses.DisplayHelp | src/CoffeeMakerQuestImpl.java:255-264 | The help text, built by six appends, is the help lines of the six commands in prompt order. |
| Responses.HelpNamesEveryCommand | src/CoffeeMakerQuestImpl.java:255-264 | For every command, the help text has a line, after the lines of the commands before it, that opens with that command's letter and " - ". |
| Responses.CommandsAreComplete | src/CoffeeMakerQuestImpl.java:151-171 | Every dispatched command appears exactly once in the command list behind the prompt and the help text. |
| Responses.DoorDoesNotExist | src/CoffeeMakerQuestImpl.java:192-194 | The missing-door reply is not empty, so it differs from the reply to a successful move. |
| Responses.LookMessage | src/CoffeeMakerQuestImpl.java:199-210 | The "found nothing" reply is given exactly for the NONE item. |
| Responses.LookMessageInjective | src/CoffeeMakerQuestImpl.java:199-210 | The four item kinds get four different replies. |
| Responses.DrinkReplyLengths | src/CoffeeMakerQuestImpl.java:220-251 | Gives the lengths of the eight replies. The win reply is the shortest, and only three pairs of lose replies share a length. |
| Responses.CreamLineTellsApart | src/CoffeeMakerQuestImpl.java:224-251 | The replies that share a length differ in their cream line. |
| Responses.DrinkMessage | src/CoffeeMakerQuestImpl.java:220-252 | The reply depends on the three possession checks alone. It is never empty, so the final `return ""` cannot be reached. It is the win reply exactly when the player holds coffee, cream and sugar. |
| Responses.DrinkOpensWithReport | src/CoffeeMakerQuestImpl.java:220-251 | Every reply opens with the report of the three checks, in the order coffee, cream, sugar, followed by a blank line. |
| Responses.DrinkMessageInjective | src/CoffeeMakerQuestImpl.java:220-251 | The eight combinations of held ingredients get eight different replies. |
| Collaborators.Room.SetNorthDoor | src/CoffeeMakerQuestImpl.java:85 | Labels the north door, and nothing else. |
| Collaborators.Room.SetSouthDoor | src/CoffeeMakerQuestImpl.java:86 | Labels the south door, and nothing else. |
| Collaborators.Player.AddItem | src/CoffeeMakerQuestImpl.java:198 | Records the handed item at the end of the log. The player's possession checks and inventory summary may change. |
| Quest.CoffeeMakerQuest.constructor | src/CoffeeMakerQuestImpl.java:5-12 | A new game has no player and no rooms, the position is -1 (unset), and nobody has drunk. |
| Quest.CoffeeMakerQuest.IsGameOver | src/CoffeeMakerQuestImpl.java:19-24 | The game is over exactly when the player has drunk. |
| Quest.CoffeeMakerQuest.SetPlayer | src/CoffeeMakerQuestImpl.java:31-33 | The player becomes p, and nothing else changes. |
| Quest.CoffeeMakerQuest.AddFirstRoom | src/CoffeeMakerQuestImpl.java:42-53 | Succeeds exactly when the room is non-null and the registry is empty. On success the registry is just that room and the position is 0. On failure the registry and the position are unchanged. |
| Quest.CoffeeMakerQuest.HasClash | src/CoffeeMakerQuestImpl.java:80-84 | The scan reports a clash exactly when some registered room has the same adjective or the same furnishing, ignoring case. |
| Quest.CoffeeMakerQuest.AddRoomAtNorth | src/CoffeeMakerQuestImpl.java:71-89 | Succeeds exactly when all three arguments are non-null, the registry is non-empty and nothing clashes. On success the room is appended (it was not registered before). The old tail's north door gets northDoor and the new room's south door gets southDoor. No other door changes. On failure neither the registry nor any door label changes. The registry stays distinct either way. |
| Quest.CoffeeMakerQuest.GetCurrentRoom | src/CoffeeMakerQuestImpl.java:97-102 | Returns null exactly when the position is negative, which happens exactly while there are no rooms. Otherwise it returns the room at the position. |
| Quest.CoffeeMakerQuest.SetCurrentRoom | src/CoffeeMakerQuestImpl.java:111-124 | Succeeds exactly when the room is non-null and registered, by reference. The position then holds its only index, so it is also the first one. On failure the position is unchanged. |
| Quest.CoffeeMakerQuest.MoveNorth | src/CoffeeMakerQuestImpl.java:176-182 | At or beyond the last index it returns the missing-door reply and stays put. Otherwise it steps north by one and returns "". A valid position stays valid. |
| Quest.CoffeeMakerQuest.MoveSouth | src/CoffeeMakerQuestImpl.java:184-190 | At index 0 it returns the missing-door reply and stays put. From any other index, negative ones included, it steps south by one and returns "". A valid position stays valid. |
| Quest.CoffeeMakerQuest.Look | src/CoffeeMakerQuestImpl.java:196-211 | Hands the current room's item to the player exactly once per call, NONE included. It returns that item's reply. The rooms, the position and the drunk flag do not change. The player's possession checks and inventory may change, as the item is handed over. |
| Quest.CoffeeMakerQuest.DisplayInventory | src/CoffeeMakerQuestImpl.java:213-216 | Returns the player's inventory summary verbatim, and changes nothing. |
| Quest.CoffeeMakerQuest.Drink | src/CoffeeMakerQuestImpl.java:218-253 | Sets the drunk flag, so the game is over. The reply is the one chosen by the player's three possession checks. |
| Quest.CoffeeMakerQuest.ProcessCommand | src/CoffeeMakerQuestImpl.java:150-174 | Dispatches case-insensitively to the matching action, with that action's outcome. Only N and S may move, only D sets the flag, and only L hands over an item or changes the player. H and unknown commands change nothing; an unknown one gets "What?\n". |
| Scenarios.InitialsApart | src/CoffeeMakerQuestImpl.java:81 | Two rooms whose furnishings start with different letters, and whose adjectives differ in length or first letter, do not collide. |
| Scenarios.ThreeRooms | src/CoffeeMakerQuestTest.java:72-74 | Building Small, Funny and Refinanced as the test setup does yields a valid game with those three rooms in order, position 0 and the setup's door labels. |

## Left out

- `Room` and `Player` are not part of this model beyond the state and calls the engine uses. The possession checks and the inventory summary are plain fields. Room descriptions and any rendering are omitted.
- Collaborators.Player.AddItem logs the item and leaves the rest of the player's state open. What the player does with the item is the player's own implementation, which is not part of this model.
- Responses.ParseCommand does not model the default locale of `toUpperCase`. Under a Turkish locale "i" upper-cases to a dotted capital I and falls through to "What?\n". The model always dispatches "i" to the inventory.
- Quest.CoffeeMakerQuest.MoveSouth does not model the 32-bit wrap-around of `currRoom--`. With no rooms, 2^31 moves south would take the position from the smallest Java `int` to the largest, and `getCurrentRoom` would then throw. The model's integer keeps decreasing and stays unset. `moveNorth` cannot overflow, because it increments only below the last index.
- AsciiText.ToUpper and AsciiText.EqualsIgnoreCase fold ASCII letters only. Java's Unicode rules (for example dotless i or the long s) are not modelled.
- Java null-pointer failures become preconditions. `look` needs a current room (`0 <= currRoom < |rooms|`). `look`, `displayInventory` and `drink` need a player. A null command string cannot occur, since `string` has no null.
- Null `String` arguments and door labels are modelled as `Option<string>`.
- Quest.CoffeeMakerQuest.ProcessCommand calls `isGameOver()` after `drink()` and discards the result. The model omits that call, which has no effect.
- Quest.CoffeeMakerQuest.HasClash is the for-each scan of `addRoomAtNorth` as a separate read-only method. The control flow is the same.
- The scenarios build only the first three of the test setup's six rooms. The other three add nothing that the three do not already show, and each further room makes the client proofs costlier.
- Several unit-test expectations disagree with the implementation's literals. The model follows the implementation and encodes none of them:
  - the help text;
  - the replies to drinking with some but not all ingredients;
  - a missing-door reply ending in "does not exist!";
  - the lose reply with a double space and no final newline;
  - `getCurrentRoom()` returning null after setup, while `addFirstRoom` sets the position to 0.
- The test scaffolding is not modelled: mocking, bug injection, reflection and console output.
