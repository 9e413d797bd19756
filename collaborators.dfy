/** The two collaborators the game engine talks to, Room and Player, reduced
    to the state and operations the engine uses. Their own implementations
    are not part of this model. */
module Collaborators {

  /** A Java reference that may be null, for the String arguments and door labels. */
  datatype Option<T> = None | Some(value: T)

  /** What a room may hold. */
  datatype Item = COFFEE | CREAM | SUGAR | NONE

  /** A room of the map. Its adjective, furnishing and item are fixed when it
      is created; only its two door labels are set later, by the registry. */
  class Room {
    const adjective: string
    const furnishing: string
    const item: Item
    var northDoor: Option<string>
    var southDoor: Option<string>

    constructor (adjective: string, furnishing: string, item: Item)
      ensures this.adjective == adjective && this.furnishing == furnishing && this.item == item
      ensures northDoor == None && southDoor == None
    {
      this.adjective := adjective;
      this.furnishing := furnishing;
      this.item := item;
      northDoor := None;
      southDoor := None;
    }

    method SetNorthDoor(door: string)
      modifies this`northDoor
      ensures northDoor == Some(door)
    {
      northDoor := Some(door);
    }

    method SetSouthDoor(door: string)
      modifies this`southDoor
      ensures southDoor == Some(door)
    {
      southDoor := Some(door);
    }
  }

  /** The player, seen through the capability the engine uses: three
      possession checks, an inventory summary, and addItem. The ghost log
      `added` records every addItem call in order. */
  class Player {
    var hasCoffee: bool
    var hasCream: bool
    var hasSugar: bool
    var inventory: string
    ghost var added: seq<Item>

    constructor (hasCoffee: bool, hasCream: bool, hasSugar: bool, inventory: string)
      ensures this.hasCoffee == hasCoffee && this.hasCream == hasCream && this.hasSugar == hasSugar
      ensures this.inventory == inventory && added == []
    {
      this.hasCoffee := hasCoffee;
      this.hasCream := hasCream;
      this.hasSugar := hasSugar;
      this.inventory := inventory;
      added := [];
    }

    /** Hands an item to the player. The model records the call; what the
        player then does with the item is left open, so the possession checks
        and the inventory summary may change. */
    method AddItem(item: Item)
      modifies this
      ensures added == old(added) + [item]
    {
      added := added + [item];
    }
  }
}
