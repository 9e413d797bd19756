/** The uniqueness rule of the room registry: no two rooms share an
    adjective or a furnishing, compared ignoring case. */
module Registry {
  import opened AsciiText
  import opened Collaborators

  /** Two rooms collide when their adjectives or their furnishings are equal ignoring case. */
  predicate Collides(existing: Room, room: Room) {
    EqualsIgnoreCase(existing.adjective, room.adjective) ||
    EqualsIgnoreCase(existing.furnishing, room.furnishing)
  }

  /** Some room of the registry collides with `room`. */
  predicate Clashes(rooms: seq<Room>, room: Room) {
    exists i :: 0 <= i < |rooms| && Collides(rooms[i], room)
  }

  /** No two rooms of the registry collide. */
  predicate Distinct(rooms: seq<Room>) {
    forall i, j :: 0 <= i < j < |rooms| ==> !Collides(rooms[i], rooms[j])
  }

  /** Every room collides with itself, so a room already in the registry
      always clashes and can never be added a second time. */
  lemma {:induction false} MemberClashes(rooms: seq<Room>, room: Room)
    ensures room in rooms ==> Clashes(rooms, room)
  {
    if room in rooms {
      EqualsIgnoreCaseIsEquivalence();
      var i :| 0 <= i < |rooms| && rooms[i] == room;
      assert Collides(rooms[i], room);
    }
  }

  /** Collision does not depend on which room is the existing one. */
  lemma CollidesSymmetric(a: Room, b: Room)
    ensures Collides(a, b) <==> Collides(b, a)
  {
    EqualsIgnoreCaseIsEquivalence();
  }

  /** Appending a room that clashes with none keeps the registry distinct,
      and appending one that clashes breaks it: the scan rejects exactly the
      rooms that would violate the rule. */
  lemma {:induction false} AppendKeepsDistinct(rooms: seq<Room>, room: Room)
    requires Distinct(rooms)
    ensures Distinct(rooms + [room]) <==> !Clashes(rooms, room)
  {
    var s := rooms + [room];
    if Clashes(rooms, room) {
      var i :| 0 <= i < |rooms| && Collides(rooms[i], room);
      assert s[i] == rooms[i] && s[|rooms|] == room;
    } else {
      forall i, j | 0 <= i < j < |s| ensures !Collides(s[i], s[j]) {
        if j < |rooms| {
          assert s[i] == rooms[i] && s[j] == rooms[j];
        } else {
          assert s[i] == rooms[i] && s[j] == room;
        }
      }
    }
  }

  /** In a distinct registry a room sits at one index only, so the first
      index holding it is the only one. */
  lemma DistinctHasNoDuplicates(rooms: seq<Room>, i: int, j: int)
    requires Distinct(rooms)
    requires 0 <= i < |rooms| && 0 <= j < |rooms| && rooms[i] == rooms[j]
    ensures i == j
  {
    EqualsIgnoreCaseIsEquivalence();
  }
}
