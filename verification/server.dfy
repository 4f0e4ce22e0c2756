/** The shared state of the chat server and its three operations (server.go): newRoom,
    room.addGeophone and room.postMessage. The two room methods hold the room's mutex and are
    taken as atomic; newRoom takes no lock and runs only in main, before any connection is
    accepted. The locks themselves are not modelled. */
module Server {
  import opened Wrappers
  import opened Wire

  /** Identity of one room object on the Go heap (a *room). */
  type RoomRef = nat

  /** Name of the room main creates and every connection joins. */
  const DefaultRoom: string := "all"

  /** A participant. Its connection is the one with the same Handle; currentRoom is the
      *room back-reference, None while it is still nil. */
  datatype Geophone = Geophone(id: string, age: int, currentRoom: Option<RoomRef>)

  /** A chat room: its name, a message history nothing ever writes, and its members in the
      order they were added (duplicates allowed). */
  datatype Room = Room(name: string, messages: seq<string>, geophones: seq<Handle>)

  /** The registry: room name to room object. */
  datatype ServerInfo = ServerInfo(rooms: map<string, RoomRef>)

  /** Where one connection's handler goroutine is in handleClient. */
  datatype Phase =
    | Greeted  // time written, geophone built, not yet in a room
    | Joined   // added to room "all"
    | Active   // entry notice posted; relaying lines
    | Closed   // end of stream seen; departure notice posted

  /** The whole server: the registry, the room and geophone objects it reaches, the state of
      each connection's handler, every write made so far, and the next fresh identities. */
  datatype World = World(
    server: ServerInfo,
    heap: map<RoomRef, Room>,
    geophones: map<Handle, Geophone>,
    handlers: map<Handle, Phase>,
    wire: seq<Write>,
    nextRoom: RoomRef,
    nextConn: Handle)

  /** A geophone whose handler got past joining points at a live room that lists it. */
  ghost predicate Placed(w: World, h: Handle) {
    h in w.geophones && h in w.handlers &&
    (w.handlers[h] != Greeted ==>
      var g := w.geophones[h];
      g.currentRoom.Some? && g.currentRoom.value in w.heap &&
      h in w.heap[g.currentRoom.value].geophones)
  }

  /** Well-formedness of the server state: the registry names live rooms under their own
      names, members and written-to connections are allocated, identities below the
      allocation counters are the only ones in use, and joined geophones are placed. */
  ghost predicate Valid(w: World) {
    && (forall n :: n in w.server.rooms ==>
          w.server.rooms[n] in w.heap && w.heap[w.server.rooms[n]].name == n)
    && (forall r :: r in w.heap ==> r < w.nextRoom)
    && w.handlers.Keys == w.geophones.Keys
    && (forall h :: h in w.geophones ==> h < w.nextConn && Placed(w, h))
    && (forall i :: 0 <= i < |w.wire| ==> w.wire[i].conn < w.nextConn)
    && (forall r, i :: r in w.heap && 0 <= i < |w.heap[r].geophones| ==>
          w.heap[r].geophones[i] in w.geophones)
  }

  /** No room has a message history: the messages field is never written. */
  ghost predicate NoHistory(w: World) {
    forall r :: r in w.heap ==> w.heap[r].messages == []
  }

  /** Every room keeps its name and its members, possibly with more appended. */
  ghost predicate Grows(w: World, w': World) {
    forall r :: r in w.heap ==>
      r in w'.heap && w'.heap[r].name == w.heap[r].name &&
      w.heap[r].geophones <= w'.heap[r].geophones
  }

  lemma GrowsTransitive(w0: World, w1: World, w2: World)
    requires Grows(w0, w1) && Grows(w1, w2)
    ensures Grows(w0, w2)
  {
  }

  /** The state before main creates any room. */
  function Empty(): World {
    World(ServerInfo(map[]), map[], map[], map[], [], 0, 0)
  }

  /** newRoom: allocates an empty room with the given name and files it under that name,
      replacing whatever room the name mapped to. A replaced room object is not touched;
      its members keep pointing at it. */
  function NewRoom(w: World, roomName: string): (w': World)
    requires forall r :: r in w.heap ==> r < w.nextRoom
    ensures roomName in w'.server.rooms
    ensures w'.server.rooms[roomName] !in w.heap
    ensures w'.server.rooms[roomName] in w'.heap &&
            w'.heap[w'.server.rooms[roomName]] == Room(roomName, [], [])
    ensures w'.server.rooms.Keys == w.server.rooms.Keys + {roomName}
    ensures forall n :: n in w.server.rooms && n != roomName ==>
              w'.server.rooms[n] == w.server.rooms[n]
    ensures forall r :: r in w.heap ==> r in w'.heap && w'.heap[r] == w.heap[r]
    ensures w'.geophones == w.geophones && w'.handlers == w.handlers && w'.wire == w.wire
  {
    var r := w.nextRoom;
    w.(server := ServerInfo(w.server.rooms[roomName := r]),
       heap := w.heap[r := Room(roomName, [], [])],
       nextRoom := r + 1)
  }

  /** newRoom keeps the server well formed, adds no history and leaves old rooms alone. */
  lemma NewRoomKeeps(w: World, roomName: string)
    requires Valid(w)
    ensures var w' := NewRoom(w, roomName);
      Valid(w') && Grows(w, w') && (NoHistory(w) ==> NoHistory(w'))
  {
    var w' := NewRoom(w, roomName);
    forall h | h in w'.geophones
      ensures h < w'.nextConn && Placed(w', h)
    {
      assert Placed(w, h);
    }
  }

  /** The state main sets up before accepting connections: one room, "all". */
  function Boot(): (w: World)
    ensures Valid(w) && NoHistory(w)
    ensures w.server.rooms.Keys == {DefaultRoom}
    ensures w.heap[w.server.rooms[DefaultRoom]] == Room(DefaultRoom, [], [])
    ensures w.geophones == map[] && w.handlers == map[] && w.wire == []
  {
    NewRoomKeeps(Empty(), DefaultRoom);
    NewRoom(Empty(), DefaultRoom)
  }

  /** room.addGeophone: appends u to room c's members, with no duplicate check, and points
      u's back-reference at c. */
  function AddGeophone(w: World, c: RoomRef, u: Handle): (w': World)
    requires c in w.heap && u in w.geophones
    ensures c in w'.heap && u in w'.geophones
    ensures w'.heap[c].geophones == w.heap[c].geophones + [u]
    ensures Count(w'.heap[c].geophones, u) == Count(w.heap[c].geophones, u) + 1
    ensures w'.heap[c].name == w.heap[c].name && w'.heap[c].messages == w.heap[c].messages
    ensures w'.geophones[u].currentRoom == Some(c)
    ensures w'.geophones[u].id == w.geophones[u].id && w'.geophones[u].age == w.geophones[u].age
    ensures w'.heap.Keys == w.heap.Keys
    ensures forall r :: r in w.heap && r != c ==> w'.heap[r] == w.heap[r]
    ensures w'.geophones.Keys == w.geophones.Keys
    ensures forall h :: h in w.geophones && h != u ==> w'.geophones[h] == w.geophones[h]
    ensures w'.server == w.server && w'.handlers == w.handlers && w'.wire == w.wire
    ensures w'.nextRoom == w.nextRoom && w'.nextConn == w.nextConn
  {
    var room := w.heap[c];
    CountAppend(room.geophones, [u], u);
    w.(heap := w.heap[c := room.(geophones := room.geophones + [u])],
       geophones := w.geophones[u := w.geophones[u].(currentRoom := Some(c))])
  }

  /** addGeophone only appends to a member list, writes no history, and keeps the server
      well formed: a geophone that had joined another room is still listed there. */
  lemma AddGeophoneKeeps(w: World, c: RoomRef, u: Handle)
    requires c in w.heap && u in w.geophones
    ensures var w' := AddGeophone(w, c, u);
      Grows(w, w') && (NoHistory(w) ==> NoHistory(w')) && (Valid(w) ==> Valid(w'))
  {
    var w' := AddGeophone(w, c, u);
    if Valid(w) {
      forall r, i | r in w'.heap && 0 <= i < |w'.heap[r].geophones|
        ensures w'.heap[r].geophones[i] in w'.geophones
      {
        if r == c && i == |w.heap[c].geophones| {
          assert w'.heap[r].geophones[i] == u;
        } else {
          assert w'.heap[r].geophones[i] == w.heap[r].geophones[i];
        }
      }
      forall h | h in w'.geophones
        ensures h < w'.nextConn && Placed(w', h)
      {
        assert Placed(w, h);
      }
    }
  }

  /** room.postMessage: writes message to every member of room c, in membership order,
      the sender included and a member listed twice written to twice. Nothing but the
      connections changes. */
  function PostMessage(w: World, c: RoomRef, message: string): (w': World)
    requires c in w.heap
    ensures var members := w.heap[c].geophones;
      && |w'.wire| == |w.wire| + |members|
      && w'.wire[..|w.wire|] == w.wire
      && forall i :: 0 <= i < |members| ==> w'.wire[|w.wire| + i] == Write(members[i], message)
    ensures w'.(wire := w.wire) == w
  {
    w.(wire := w.wire + FanOut(w.heap[c].geophones, message))
  }

  /** postMessage writes only to allocated connections, so the server stays well formed. */
  lemma PostMessageKeeps(w: World, c: RoomRef, message: string)
    requires c in w.heap
    ensures Valid(w) ==> Valid(PostMessage(w, c, message))
  {
    var w' := PostMessage(w, c, message);
    if Valid(w) {
      forall h | h in w'.geophones
        ensures h < w'.nextConn && Placed(w', h)
      {
        assert Placed(w, h);
      }
    }
  }

  /** Who receives what from postMessage: each connection gets the message once per time it
      is listed in the room, appended after what it had; a connection outside the room gets
      nothing. */
  lemma PostMessageOutbox(w: World, c: RoomRef, message: string, h: Handle)
    requires c in w.heap
    ensures Outbox(PostMessage(w, c, message).wire, h) ==
            Outbox(w.wire, h) + Repeat(message, Count(w.heap[c].geophones, h))
  {
    OutboxAppend(w.wire, FanOut(w.heap[c].geophones, message), h);
    OutboxFanOut(w.heap[c].geophones, message, h);
  }

  /** addGeophone has no duplicate check: a geophone added twice to a room it was not in
      is listed twice, and every later post to the room writes to it twice. */
  lemma AddTwiceDeliversTwice(w: World, c: RoomRef, u: Handle, message: string)
    requires c in w.heap && u in w.geophones && u !in w.heap[c].geophones
    ensures var w2 := AddGeophone(AddGeophone(w, c, u), c, u);
      Count(w2.heap[c].geophones, u) == 2 &&
      Outbox(PostMessage(w2, c, message).wire, u) == Outbox(w.wire, u) + [message, message]
  {
    var w1 := AddGeophone(w, c, u);
    var w2 := AddGeophone(w1, c, u);
    CountAbsent(w.heap[c].geophones, u);
    assert Count(w2.heap[c].geophones, u) == 2;
    PostMessageOutbox(w2, c, message, u);
    RepeatTwo(message);
  }
}
