/** Clients of the game that replay the unit-test scenarios of the
    repository and check that the contracts alone determine their outcomes. */
module Scenarios {
  import opened AsciiText
  import opened Collaborators
  import opened Registry
  import opened Quest
  import Responses

  /** Two rooms whose furnishings start with different letters, and whose
      adjectives differ in length or in their first letter, do not collide. */
  lemma InitialsApart(a: Room, b: Room)
    requires |a.furnishing| > 0 && |b.furnishing| > 0
    requires UpperChar(a.furnishing[0]) != UpperChar(b.furnishing[0])
    requires |a.adjective| != |b.adjective| ||
             (|a.adjective| > 0 && |b.adjective| > 0 && UpperChar(a.adjective[0]) != UpperChar(b.adjective[0]))
    ensures !Collides(a, b)
  {
  }

  /** The first three rooms of the tests' map, south to north: Small
      (cream), Funny (nothing) and Refinanced (coffee), with the door labels
      the tests' setup passes. */
  method ThreeRooms() returns (q: CoffeeMakerQuest, r1: Room, r2: Room, r3: Room)
    ensures fresh(q) && fresh(r1) && fresh(r2) && fresh(r3)
    ensures q.Valid() && q.player == null && !q.drank
    ensures q.rooms == [r1, r2, r3] && q.currRoom == 0
    ensures r1.adjective == "Small" && r1.furnishing == "Quaint sofa" && r1.item == CREAM
    ensures r2.adjective == "Funny" && r2.furnishing == "Sad record player" && r2.item == NONE
    ensures r3.adjective == "Refinanced" && r3.furnishing == "Tight pizza" && r3.item == COFFEE
    ensures r1.northDoor == Some("Refinanced room") && r2.southDoor == Some("Small room")
    ensures r2.northDoor == Some("Dumb room") && r3.southDoor == Some("Funny room") && r3.northDoor == None
  {
    q := new CoffeeMakerQuest();
    r1 := new Room("Small", "Quaint sofa", CREAM);
    r2 := new Room("Funny", "Sad record player", NONE);
    r3 := new Room("Refinanced", "Tight pizza", COFFEE);
    var ok := q.AddFirstRoom(r1);
    assert ok;
    InitialsApart(r1, r2);
    assert !Clashes(q.rooms, r2);
    ok := q.AddRoomAtNorth(r2, Some("Refinanced room"), Some("Small room"));
    assert ok;
    InitialsApart(r1, r3); InitialsApart(r2, r3);
    assert !Clashes(q.rooms, r3);
    ok := q.AddRoomAtNorth(r3, Some("Dumb room"), Some("Funny room"));
    assert ok;
  }

  /** A second first room and a null room are refused, and change nothing. */
  method RejectionScenario() {
    var q, r1, r2, r3 := ThreeRooms();
    var other := new Room("Fake", "Fake bed", NONE);
    var ok := q.AddFirstRoom(other);
    assert !ok && q.rooms == [r1, r2, r3] && q.currRoom == 0;
    ok := q.AddRoomAtNorth(null, None, None);
    assert !ok && q.rooms == [r1, r2, r3];
  }

  /** A room whose adjective repeats Funny's in another case is refused,
      and no door label changes. */
  method DuplicateScenario() {
    var q, r1, r2, r3 := ThreeRooms();
    var dup := new Room("FUNNY", "Fake bed", NONE);
    assert Collides(r2, dup) && q.rooms[1] == r2;
    assert Clashes(q.rooms, dup);
    var ok := q.AddRoomAtNorth(dup, Some("North"), Some("South"));
    assert !ok && q.rooms == [r1, r2, r3] && r3.northDoor == None && dup.southDoor == None;
  }

  /** A room unlike every other is attached north of Refinanced, door labels and all. */
  method AcceptanceScenario() {
    var q, r1, r2, r3 := ThreeRooms();
    var other := new Room("Fake", "Fake bed", NONE);
    InitialsApart(r1, other); InitialsApart(r2, other); InitialsApart(r3, other);
    assert !Clashes(q.rooms, other);
    var ok := q.AddRoomAtNorth(other, Some("North"), Some("South"));
    assert ok && r3.northDoor == Some("North") && other.southDoor == Some("South");
    assert other.northDoor == None && q.rooms == [r1, r2, r3, other];
  }

  /** Setting the position to a room of the map, and to one outside it. */
  method SetPositionScenario() {
    var q, r1, r2, r3 := ThreeRooms();
    var ok := q.SetCurrentRoom(r2);
    assert ok && q.GetCurrentRoom() == r2;
    var stray := new Room("Fake", "Fake bed", NONE);
    ok := q.SetCurrentRoom(stray);
    assert !ok && q.GetCurrentRoom() == r2;
  }

  /** North from Funny leads to Refinanced with an empty reply; north
      again finds no door, and south from Small finds none either. */
  method MovementScenario() {
    var q, r1, r2, r3 := ThreeRooms();
    var msg := q.MoveSouth();
    assert msg == Responses.DoorDoesNotExist() && q.GetCurrentRoom() == r1;
    var ok := q.SetCurrentRoom(r2);
    assert q.rooms[1] == r2 && q.currRoom == 1;
    msg := q.MoveNorth();
    assert msg == "" && q.GetCurrentRoom() == r3;
    msg := q.MoveNorth();
    assert msg == Responses.DoorDoesNotExist() && q.GetCurrentRoom() == r3;
  }

  /** Before any room exists the position is unset (-1). A move south takes
      it to -2, a move north back to -1, and only then is a move north
      refused, since -1 is the index of the last of zero rooms. */
  method UnsetPositionScenario() {
    var q := new CoffeeMakerQuest();
    assert q.GetCurrentRoom() == null;
    var msg := q.MoveSouth();
    assert msg == "" && q.currRoom == -2;
    msg := q.MoveNorth();
    assert msg == "" && q.currRoom == -1;
    msg := q.MoveNorth();
    assert msg == Responses.DoorDoesNotExist() && q.currRoom == -1;
  }

  /** Looking twice in the cream room hands the cream over twice. */
  method LookScenario() {
    var q, r1, r2, r3 := ThreeRooms();
    var p := new Player(false, false, false, "");
    q.SetPlayer(p);
    var msg := q.Look();
    assert msg == Responses.LookMessage(CREAM) && p.added == [CREAM];
    msg := q.Look();
    assert p.added == [CREAM, CREAM];
  }

  /** The inventory command echoes the player's summary and leaves the game running. */
  method InventoryScenario() {
    var q, r1, r2, r3 := ThreeRooms();
    var p := new Player(false, false, false, "YOU HAVE NO COFFEE!\n");
    q.SetPlayer(p);
    var msg := q.DisplayInventory();
    assert msg == "YOU HAVE NO COFFEE!\n" && !q.IsGameOver();
  }

  /** Drinking with nothing loses, and the game is over. */
  method LossScenario() {
    var q := new CoffeeMakerQuest();
    var p := new Player(false, false, false, "");
    q.SetPlayer(p);
    var msg := q.Drink();
    assert msg == Responses.DrinkNone && q.IsGameOver();
  }

  /** Drinking with coffee, cream and sugar wins. */
  method WinScenario() {
    var q := new CoffeeMakerQuest();
    var p := new Player(true, true, true, "");
    q.SetPlayer(p);
    var msg := q.Drink();
    assert msg == Responses.DrinkAll && q.IsGameOver();
  }

  /** Commands dispatch on their letter in either case. */
  method DispatchScenario() {
    assert Responses.ParseCommand("n") == Responses.North;
    assert Responses.ParseCommand("S") == Responses.South;
    assert Responses.ParseCommand("l") == Responses.Look;
    assert Responses.ParseCommand("I") == Responses.Inventory;
  }

  /** Drink and help dispatch likewise. */
  method DispatchRestScenario() {
    assert Responses.ParseCommand("d") == Responses.Drink;
    assert Responses.ParseCommand("h") == Responses.Help;
  }

  /** Anything else, longer strings and the empty string included, is unknown. */
  method UnknownScenario() {
    assert Responses.ParseCommand("x") == Responses.Unknown;
    assert Responses.ParseCommand("nn") == Responses.Unknown;
    assert Responses.ParseCommand("") == Responses.Unknown;
  }
}
