/** The game-state machine: an append-only registry of rooms ordered south
    to north, the index of the room the player is in, and whether the player
    has drunk yet. */
module Quest {
  import opened AsciiText
  import opened Collaborators
  import opened Registry
  import Responses

  class CoffeeMakerQuest {
    var player: Player?
    /** The rooms, index 0 the southern-most and the last the northern-most. */
    var rooms: seq<Room>
    /** The index of the current room; negative while no room is current. */
    var currRoom: int
    var drank: bool

    /** The object invariant: the position never lies north of the last
        room; once a room exists the position is one of the rooms (before
        that it is unset, -1 or, after moves south, below: see MoveSouth);
        and no two rooms share an adjective or a furnishing, ignoring case. */
    ghost predicate Valid()
      reads this
    {
      currRoom < |rooms| && (|rooms| > 0 ==> 0 <= currRoom) && Distinct(rooms)
    }

    constructor ()
      ensures Valid()
      ensures player == null && rooms == [] && currRoom == -1 && !drank
    {
      player := null;
      rooms := [];
      currRoom := -1;
      drank := false;
    }

    /** The game is over once the player has drunk. */
    function IsGameOver(): (over: bool)
      reads this
      ensures over <==> drank
    {
      if drank then true else false
    }

    method SetPlayer(p: Player?)
      modifies this`player
      ensures player == p
    {
      player := p;
    }

    /** Adds the first room, which also becomes the current room. Fails, and
        changes nothing, when the room is null or rooms already exist. */
    method AddFirstRoom(room: Room?) returns (ok: bool)
      requires Valid()
      modifies this`rooms, this`currRoom
      ensures Valid()
      ensures ok <==> room != null && old(rooms) == []
      ensures ok ==> rooms == [room] && currRoom == 0
      ensures !ok ==> rooms == old(rooms) && currRoom == old(currRoom)
    {
      if room == null {
        return false;
      }
      if |rooms| == 0 {
        rooms := rooms + [room];
        currRoom := 0;
        return true;
      }
      return false;
    }

    /** The scan of the registry for a room whose adjective or furnishing
        equals that of `room`, ignoring case. */
    method HasClash(room: Room) returns (clash: bool)
      ensures clash == Clashes(rooms, room)
    {
      var i := 0;
      while i < |rooms|
        invariant 0 <= i <= |rooms|
        invariant forall j :: 0 <= j < i ==> !Collides(rooms[j], room)
      {
        var r := rooms[i];
        if EqualsIgnoreCase(r.adjective, room.adjective) || EqualsIgnoreCase(r.furnishing, room.furnishing) {
          return true;
        }
        i := i + 1;
      }
      return false;
    }

    /** Attaches `room` north of the northern-most room. Fails, and changes
        nothing, when an argument is null, when there are no rooms yet, or
        when an existing room has the same adjective or furnishing ignoring
        case. On success the old northern-most room's north door is labelled
        northDoor, the new room's south door is labelled southDoor, and the
        new room becomes the northern-most. */
    method AddRoomAtNorth(room: Room?, northDoor: Option<string>, southDoor: Option<string>) returns (ok: bool)
      requires Valid()
      modifies this`rooms, room, if rooms == [] then {} else {rooms[|rooms| - 1]}
      ensures Valid()
      ensures ok <==> room != null && northDoor.Some? && southDoor.Some? && old(rooms) != [] && !Clashes(old(rooms), room)
      ensures !ok ==> rooms == old(rooms)
      ensures !ok && room != null ==> room.northDoor == old(room.northDoor) && room.southDoor == old(room.southDoor)
      ensures !ok ==> forall r :: r in old(rooms) ==> r.northDoor == old(r.northDoor) && r.southDoor == old(r.southDoor)
      ensures ok ==> room !in old(rooms) && rooms == old(rooms) + [room]
      ensures ok ==> old(rooms)[|old(rooms)| - 1].northDoor == northDoor
      ensures ok ==> old(rooms)[|old(rooms)| - 1].southDoor == old(rooms[|rooms| - 1].southDoor)
      ensures ok ==> room.southDoor == southDoor && room.northDoor == old(room.northDoor)
      ensures forall i :: 0 <= i < |old(rooms)| - 1 ==>
        old(rooms)[i].northDoor == old(rooms[i].northDoor) && old(rooms)[i].southDoor == old(rooms[i].southDoor)
    {
      if room == null || northDoor.None? || southDoor.None? {
        return false;
      }
      if |rooms| == 0 {
        return false;
      }
      var clash := HasClash(room);
      if clash {
        return false;
      }
      MemberClashes(rooms, room);
      AppendKeepsDistinct(rooms, room);
      rooms[|rooms| - 1].SetNorthDoor(northDoor.value);
      room.SetSouthDoor(southDoor.value);
      rooms := rooms + [room];
      return true;
    }

    /** The current room, or null while no room is current. */
    function GetCurrentRoom(): (r: Room?)
      reads this
      requires Valid()
      ensures r == null <==> currRoom < 0
      ensures r == null <==> rooms == []
      ensures r != null ==> r in rooms && r == rooms[currRoom]
    {
      if currRoom < 0 then null else rooms[currRoom]
    }

    /** Makes `room` the current room when it is one of the rooms (by
        reference). Otherwise fails and leaves the position alone. */
    method SetCurrentRoom(room: Room?) returns (ok: bool)
      requires Valid()
      modifies this`currRoom
      ensures Valid()
      ensures ok <==> room != null && room in rooms
      ensures ok ==> 0 <= currRoom < |rooms| && rooms[currRoom] == room && GetCurrentRoom() == room
      ensures ok ==> forall j :: 0 <= j < |rooms| && rooms[j] == room ==> j == currRoom
      ensures !ok ==> currRoom == old(currRoom)
    {
      if room == null {
        return false;
      }
      var i := 0;
      while i < |rooms|
        invariant 0 <= i <= |rooms|
        invariant forall j :: 0 <= j < i ==> rooms[j] != room
        invariant currRoom == old(currRoom)
      {
        if rooms[i] == room {
          currRoom := i;
          forall j | 0 <= j < |rooms| && rooms[j] == room ensures j == currRoom {
            DistinctHasNoDuplicates(rooms, i, j);
          }
          return true;
        }
        i := i + 1;
      }
      return false;
    }

    /** Steps one room north, unless the current room is the northern-most
        (or there is none north of the position). */
    method MoveNorth() returns (msg: string)
      requires Valid()
      modifies this`currRoom
      ensures Valid()
      ensures old(currRoom) >= |rooms| - 1 ==> msg == Responses.DoorDoesNotExist() && currRoom == old(currRoom)
      ensures old(currRoom) < |rooms| - 1 ==> msg == "" && currRoom == old(currRoom) + 1
      ensures 0 <= old(currRoom) ==> 0 <= currRoom < |rooms|
    {
      if currRoom >= |rooms| - 1 {
        return Responses.DoorDoesNotExist();
      }
      currRoom := currRoom + 1;
      return "";
    }

    /** Steps one room south, unless the current room is the southern-most.
        Only index 0 is refused, so from an unset position (-1) the index
        moves on to -2. */
    method MoveSouth() returns (msg: string)
      requires Valid()
      modifies this`currRoom
      ensures Valid()
      ensures old(currRoom) == 0 ==> msg == Responses.DoorDoesNotExist() && currRoom == old(currRoom)
      ensures old(currRoom) != 0 ==> msg == "" && currRoom == old(currRoom) - 1
      ensures 0 <= old(currRoom) ==> 0 <= currRoom < |rooms|
    {
      if currRoom == 0 {
        return Responses.DoorDoesNotExist();
      }
      currRoom := currRoom - 1;
      return "";
    }

    /** Hands the current room's item to the player, every time and whatever
        the item (NONE included), and describes what was found. */
    method Look() returns (msg: string)
      requires Valid() && player != null && 0 <= currRoom < |rooms|
      modifies player
      ensures player.added == old(player.added) + [rooms[currRoom].item]
      ensures msg == Responses.LookMessage(rooms[currRoom].item)
    {
      var item := GetCurrentRoom().item;
      player.AddItem(item);
      msg := Responses.LookMessage(item);
    }

    /** The player's inventory summary, verbatim. */
    method DisplayInventory() returns (msg: string)
      requires player != null
      ensures msg == player.inventory
    {
      msg := player.inventory;
    }

    /** Drinks: the game is over from now on, and the reply depends only on
        which of coffee, cream and sugar the player holds. */
    method Drink() returns (msg: string)
      requires Valid() && player != null
      modifies this`drank
      ensures Valid() && drank && IsGameOver()
      ensures msg == Responses.DrinkMessage(player.hasCoffee, player.hasCream, player.hasSugar)
    {
      drank := true;
      msg := Responses.DrinkMessage(player.hasCoffee, player.hasCream, player.hasSugar);
    }

    /** Dispatches a command, case-insensitively, to the action it names;
        help and unrecognised commands change nothing. */
    method ProcessCommand(cmd: string) returns (msg: string)
      requires Valid()
      requires Responses.NeedsPlayer(Responses.ParseCommand(cmd)) ==> player != null
      requires Responses.ParseCommand(cmd) == Responses.Look ==> 0 <= currRoom
      modifies this`currRoom, this`drank, if player == null then {} else {player}
      ensures Valid()
      ensures player != null && Responses.ParseCommand(cmd) != Responses.Look ==>
        unchanged(player`hasCoffee, player`hasCream, player`hasSugar, player`inventory)
      ensures !Responses.ParseCommand(cmd).Move() ==> currRoom == old(currRoom)
      ensures Responses.ParseCommand(cmd) != Responses.Drink ==> drank == old(drank)
      ensures player != null && Responses.ParseCommand(cmd) != Responses.Look ==> player.added == old(player.added)
      ensures match Responses.ParseCommand(cmd)
        case North =>
          if old(currRoom) >= |rooms| - 1 then msg == Responses.DoorDoesNotExist() && currRoom == old(currRoom)
          else msg == "" && currRoom == old(currRoom) + 1
        case South =>
          if old(currRoom) == 0 then msg == Responses.DoorDoesNotExist() && currRoom == old(currRoom)
          else msg == "" && currRoom == old(currRoom) - 1
        case Look =>
          msg == Responses.LookMessage(rooms[currRoom].item) &&
          player.added == old(player.added) + [rooms[currRoom].item]
        case Inventory => msg == player.inventory
        case Drink => drank && msg == Responses.DrinkMessage(player.hasCoffee, player.hasCream, player.hasSugar)
        case Help => msg == Responses.DisplayHelp()
        case Unknown => msg == Responses.WhatReply
    {
      match Responses.ParseCommand(cmd)
      case North =>
        msg := MoveNorth();
      case South =>
        msg := MoveSouth();
      case Look =>
        msg := Look();
      case Inventory =>
        msg := DisplayInventory();
      case Drink =>
        // The source also calls isGameOver() here and discards the result.
        msg := Drink();
      case Help =>
        msg := Responses.DisplayHelp();
      case Unknown =>
        msg := Responses.WhatReply;
    }
  }
}
