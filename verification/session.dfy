/** The per-connection control loop, handleClient, as a state machine over the server state.
    Each event is one atomic step: the greeting write, the join, or one postMessage. The
    events of many connections may interleave in any order; one connection's own events
    follow its Script. */
module Session {
  import opened Wrappers
  import opened Wire
  import opened Text
  import opened Server

  /** The identity every geophone gets: it is hard-coded, not asked of the client. */
  const ClientId: string := "geophone"

  function Entered(id: string): string { id + " has entered the room.\n" }

  function Left(id: string): string { id + " has left the room.\n" }

  /** A line a client sent, as relayed to the room: its sender's id, ": ", then the line
      with its newline. */
  function Relay(id: string, line: string): string { id + ": " + line }

  /** One atomic step of some connection's handler. */
  datatype Event =
    | Accept(daytime: string)           // a connection is accepted: greet it, build its geophone
    | Join(h: Handle)                   // add the geophone to room "all"
    | Enter(h: Handle)                  // post the entry notice
    | Receive(h: Handle, line: string)  // ReadString returned a complete line: relay it
    | Hangup(h: Handle)                 // ReadString returned io.EOF: post the departure notice

  /** h's geophone points at a live room. */
  predicate InRoom(w: World, h: Handle) {
    h in w.geophones && h in w.handlers &&
    w.geophones[h].currentRoom.Some? && w.geophones[h].currentRoom.value in w.heap
  }

  function RoomOf(w: World, h: Handle): RoomRef
    requires InRoom(w, h)
  {
    w.geophones[h].currentRoom.value
  }

  /** When an event can happen: the handler is at the right point of handleClient, and the
      pointers it follows are not nil. A Join without a room "all" would dereference nil. */
  predicate Enabled(w: World, e: Event) {
    match e
    case Accept(_) => true
    case Join(h) =>
      h in w.geophones && h in w.handlers && w.handlers[h] == Greeted &&
      DefaultRoom in w.server.rooms && w.server.rooms[DefaultRoom] in w.heap
    case Enter(h) => InRoom(w, h) && w.handlers[h] == Joined
    case Receive(h, line) => InRoom(w, h) && w.handlers[h] == Active && IsLine(line)
    case Hangup(h) => InRoom(w, h) && w.handlers[h] == Active
  }

  /** The effect of one event. Accept gives the new connection the next free handle. */
  function Step(w: World, e: Event): (w': World)
    requires Enabled(w, e)
  {
    match e
    case Accept(daytime) =>
      var h := w.nextConn;
      w.(wire := w.wire + [Write(h, daytime + "\n")],
         geophones := w.geophones[h := Geophone(ClientId, 0, None)],
         handlers := w.handlers[h := Greeted],
         nextConn := h + 1)
    case Join(h) =>
      var w1 := AddGeophone(w, w.server.rooms[DefaultRoom], h);
      w1.(handlers := w1.handlers[h := Joined])
    case Enter(h) =>
      var w1 := PostMessage(w, RoomOf(w, h), Entered(ClientId));
      w1.(handlers := w1.handlers[h := Active])
    case Receive(h, line) =>
      PostMessage(w, RoomOf(w, h), Relay(w.geophones[h].id, line))
    case Hangup(h) =>
      var w1 := PostMessage(w, RoomOf(w, h), Left(ClientId));
      w1.(handlers := w1.handlers[h := Closed])
  }

  /** Accept hands out a handle no geophone, room member or earlier write has used. */
  lemma AcceptKeeps(w: World, daytime: string)
    ensures var w' := Step(w, Accept(daytime));
      Grows(w, w') && (NoHistory(w) ==> NoHistory(w')) && (Valid(w) ==> Valid(w'))
  {
    var w' := Step(w, Accept(daytime));
    if Valid(w) {
      forall h | h in w'.geophones
        ensures h < w'.nextConn && Placed(w', h)
      {
        if h != w.nextConn {
          assert Placed(w, h);
        }
      }
    }
  }

  lemma JoinKeeps(w: World, h: Handle)
    requires Enabled(w, Join(h))
    ensures var w' := Step(w, Join(h));
      Grows(w, w') && (NoHistory(w) ==> NoHistory(w')) && (Valid(w) ==> Valid(w'))
  {
    var w1 := AddGeophone(w, w.server.rooms[DefaultRoom], h);
    AddGeophoneKeeps(w, w.server.rooms[DefaultRoom], h);
    var w' := Step(w, Join(h));
    assert w' == w1.(handlers := w1.handlers[h := Joined]);
    if Valid(w) {
      forall x | x in w'.geophones
        ensures x < w'.nextConn && Placed(w', x)
      {
        assert Placed(w1, x);
      }
    }
  }

  /** A post that also moves h's handler to another phase past joining. */
  lemma PostKeeps(w: World, h: Handle, message: string, phase: Phase)
    requires InRoom(w, h) && w.handlers[h] != Greeted && phase != Greeted
    ensures var w1 := PostMessage(w, RoomOf(w, h), message);
      var w' := w1.(handlers := w1.handlers[h := phase]);
      Grows(w, w') && (NoHistory(w) ==> NoHistory(w')) && (Valid(w) ==> Valid(w'))
  {
    var w1 := PostMessage(w, RoomOf(w, h), message);
    var w' := w1.(handlers := w1.handlers[h := phase]);
    PostMessageKeeps(w, RoomOf(w, h), message);
    if Valid(w) {
      forall x | x in w'.geophones
        ensures x < w'.nextConn && Placed(w', x)
      {
        assert Placed(w, x);
      }
    }
  }

  /** Every event keeps the server well formed, leaves room histories empty and only ever
      appends to a room's members. */
  lemma StepKeeps(w: World, e: Event)
    requires Enabled(w, e)
    ensures var w' := Step(w, e);
      Grows(w, w') && (NoHistory(w) ==> NoHistory(w')) && (Valid(w) ==> Valid(w'))
  {
    match e
    case Accept(daytime) => AcceptKeeps(w, daytime);
    case Join(h) => JoinKeeps(w, h);
    case Enter(h) => PostKeeps(w, h, Entered(ClientId), Active);
    case Receive(h, line) =>
      var m := Relay(w.geophones[h].id, line);
      PostKeeps(w, h, m, Active);
      assert PostMessage(w, RoomOf(w, h), m).handlers[h := Active] == w.handlers;
    case Hangup(h) => PostKeeps(w, h, Left(ClientId), Closed);
  }

  /** Runs events in order; None when one of them cannot happen in the state it meets. */
  function Run(w: World, es: seq<Event>): Option<World>
    decreases |es|
  {
    if es == [] then Some(w)
    else if Enabled(w, es[0]) then Run(Step(w, es[0]), es[1..])
    else None
  }

  /** Whatever the interleaving of the handlers' events, a run keeps the server well formed,
      never writes a room's history, and never takes a member out of a room. */
  lemma {:induction false} RunKeeps(w: World, es: seq<Event>)
    requires Run(w, es).Some?
    ensures Valid(w) ==> Valid(Run(w, es).value)
    ensures NoHistory(w) ==> NoHistory(Run(w, es).value)
    ensures Grows(w, Run(w, es).value)
    decreases |es|
  {
    if es != [] {
      var w1 := Step(w, es[0]);
      StepKeeps(w, es[0]);
      RunKeeps(w1, es[1..]);
      GrowsTransitive(w, w1, Run(w, es).value);
    }
  }

  lemma RunCons(w: World, e: Event, es: seq<Event>)
    requires Enabled(w, e)
    ensures Run(w, [e] + es) == Run(Step(w, e), es)
  {
    assert ([e] + es)[0] == e;
    assert ([e] + es)[1..] == es;
  }

  /** The read loop's events for the complete lines it reads. */
  function Receives(h: Handle, lines: seq<string>): seq<Event> {
    if lines == [] then [] else [Receive(h, lines[0])] + Receives(h, lines[1..])
  }

  /** The relayed form of each line, in order. */
  function Relays(id: string, lines: seq<string>): (ms: seq<string>)
    ensures |ms| == |lines|
    ensures forall i :: 0 <= i < |lines| ==> ms[i] == Relay(id, lines[i])
  {
    if lines == [] then [] else [Relay(id, lines[0])] + Relays(id, lines[1..])
  }

  /** The events of one handleClient call whose connection gets handle h, for a client that
      sends input and then closes the connection. */
  function Script(h: Handle, daytime: string, input: string): seq<Event> {
    [Accept(daytime), Join(h), Enter(h)] + Receives(h, ReadLines(input).0) + [Hangup(h)]
  }

  /** The messages such a session posts to its room, in order. */
  function Posts(id: string, input: string): seq<string> {
    [Entered(id)] + Relays(id, ReadLines(input).0) + [Left(id)]
  }

  /** handleClient for one connection, run without other connections interleaving. */
  function HandleClient(w: World, daytime: string, input: string): Option<World> {
    Run(w, Script(w.nextConn, daytime, input))
  }

  /** The departure notice goes to the handler's room and closes the handler. */
  lemma RunHangup(w: World, h: Handle)
    requires InRoom(w, h) && w.handlers[h] == Active
    ensures Run(w, [Hangup(h)]) ==
            Some(w.(wire := w.wire + FanOut(w.heap[RoomOf(w, h)].geophones, Left(ClientId)),
                    handlers := w.handlers[h := Closed]))
  {
    RunCons(w, Hangup(h), []);
    assert [Hangup(h)] + [] == [Hangup(h)];
  }

  /** One relayed line goes to the handler's room and leaves everything else alone. */
  lemma StepReceive(w: World, h: Handle, line: string)
    requires InRoom(w, h) && w.handlers[h] == Active && IsLine(line)
    ensures Step(w, Receive(h, line)) ==
            w.(wire := w.wire + FanOut(w.heap[RoomOf(w, h)].geophones, Relay(w.geophones[h].id, line)))
  {
  }

  /** The read loop of an active handler relays each line to its room and then posts the
      departure notice; the room's members do not change meanwhile. */
  lemma {:induction false} RunRelays(w: World, h: Handle, lines: seq<string>)
    requires InRoom(w, h) && w.handlers[h] == Active
    requires forall i :: 0 <= i < |lines| ==> IsLine(lines[i])
    ensures Run(w, Receives(h, lines) + [Hangup(h)]) ==
            Some(w.(wire := w.wire + Broadcasts(w.heap[RoomOf(w, h)].geophones,
                                                Relays(w.geophones[h].id, lines) + [Left(ClientId)]),
                    handlers := w.handlers[h := Closed]))
    decreases |lines|
  {
    var members := w.heap[RoomOf(w, h)].geophones;
    var id := w.geophones[h].id;
    if lines == [] {
      assert Receives(h, lines) + [Hangup(h)] == [Hangup(h)];
      RunHangup(w, h);
      assert Relays(id, lines) + [Left(ClientId)] == [Left(ClientId)] + [];
      BroadcastsCons(members, Left(ClientId), []);
      assert Broadcasts(members, []) == [];
      assert Broadcasts(members, Relays(id, lines) + [Left(ClientId)]) == FanOut(members, Left(ClientId));
    } else {
      var m := Relay(id, lines[0]);
      var rest := Relays(id, lines[1..]) + [Left(ClientId)];
      var w1 := w.(wire := w.wire + FanOut(members, m));
      StepReceive(w, h, lines[0]);
      assert Receives(h, lines) + [Hangup(h)] ==
             [Receive(h, lines[0])] + (Receives(h, lines[1..]) + [Hangup(h)]);
      RunCons(w, Receive(h, lines[0]), Receives(h, lines[1..]) + [Hangup(h)]);
      assert RoomOf(w1, h) == RoomOf(w, h) && w1.geophones == w.geophones;
      RunRelays(w1, h, lines[1..]);
      assert Relays(id, lines) + [Left(ClientId)] == [m] + rest;
      BroadcastsCons(members, m, rest);
      var wire' := w.wire + Broadcasts(members, [m] + rest);
      AppendAssociative(w.wire, FanOut(members, m), Broadcasts(members, rest));
      assert w1.(wire := w1.wire + Broadcasts(members, rest), handlers := w.handlers[h := Closed]) ==
             w.(wire := wire', handlers := w.handlers[h := Closed]);
    }
  }

  /** A whole session, alone, on a server whose registry has a room "all": the connection
      gets the next handle and the greeting, its geophone is appended to room "all" and is
      still there when the handler closes, and the room's members, itself included, are
      written the session's posts in order. Nothing else changes. */
  lemma HandleClientRun(w: World, daytime: string, input: string)
    requires DefaultRoom in w.server.rooms && w.server.rooms[DefaultRoom] in w.heap
    ensures var h := w.nextConn;
      var c := w.server.rooms[DefaultRoom];
      var members := w.heap[c].geophones + [h];
      HandleClient(w, daytime, input) ==
      Some(w.(wire := w.wire + [Write(h, daytime + "\n")] + Broadcasts(members, Posts(ClientId, input)),
              heap := w.heap[c := w.heap[c].(geophones := members)],
              geophones := w.geophones[h := Geophone(ClientId, 0, Some(c))],
              handlers := w.handlers[h := Closed],
              nextConn := h + 1))
  {
    var h := w.nextConn;
    var c := w.server.rooms[DefaultRoom];
    var members := w.heap[c].geophones + [h];
    var lines := ReadLines(input).0;
    var rest := Receives(h, lines) + [Hangup(h)];
    AppendAssociative([Accept(daytime), Join(h), Enter(h)], Receives(h, lines), [Hangup(h)]);
    var w1, w2, w3 := OpeningStates(w, daytime);
    Opening(w, w1, w2, w3, h, daytime, rest);
    RunRelays(w3, h, lines);
    ClosingState(w, daytime, input, w3);
  }

  /** The state a session ends in, from the state after its opening steps. */
  lemma ClosingState(w: World, daytime: string, input: string, w3: World)
    requires DefaultRoom in w.server.rooms && w.server.rooms[DefaultRoom] in w.heap
    requires var h := w.nextConn;
      var c := w.server.rooms[DefaultRoom];
      var members := w.heap[c].geophones + [h];
      && w3 == w.(wire := w.wire + [Write(h, daytime + "\n")] + FanOut(members, Entered(ClientId)),
                  heap := w.heap[c := w.heap[c].(geophones := members)],
                  geophones := w.geophones[h := Geophone(ClientId, 0, Some(c))],
                  handlers := w.handlers[h := Active],
                  nextConn := h + 1)
      && InRoom(w3, h) && RoomOf(w3, h) == c
    ensures var h := w.nextConn;
      var c := w.server.rooms[DefaultRoom];
      var members := w.heap[c].geophones + [h];
      w3.(wire := w3.wire + Broadcasts(w3.heap[RoomOf(w3, h)].geophones,
                                       Relays(w3.geophones[h].id, ReadLines(input).0) + [Left(ClientId)]),
          handlers := w3.handlers[h := Closed]) ==
      w.(wire := w.wire + [Write(h, daytime + "\n")] + Broadcasts(members, Posts(ClientId, input)),
         heap := w.heap[c := w.heap[c].(geophones := members)],
         geophones := w.geophones[h := Geophone(ClientId, 0, Some(c))],
         handlers := w.handlers[h := Closed],
         nextConn := h + 1)
  {
    var h := w.nextConn;
    var c := w.server.rooms[DefaultRoom];
    var members := w.heap[c].geophones + [h];
    var relayed := Relays(ClientId, ReadLines(input).0) + [Left(ClientId)];
    assert w3.heap[RoomOf(w3, h)].geophones == members;
    assert w3.geophones[h].id == ClientId;
    BroadcastsCons(members, Entered(ClientId), relayed);
    assert Posts(ClientId, input) == [Entered(ClientId)] + relayed;
    AppendAssociative(w.wire + [Write(h, daytime + "\n")], FanOut(members, Entered(ClientId)),
                      Broadcasts(members, relayed));
    UpdateTwice(w.handlers, h, Active, Closed);
  }

  /** The first three steps of a session run one after the other. */
  lemma Opening(w: World, w1: World, w2: World, w3: World, h: Handle, daytime: string, rest: seq<Event>)
    requires w1 == Step(w, Accept(daytime))
    requires Enabled(w1, Join(h)) && w2 == Step(w1, Join(h))
    requires Enabled(w2, Enter(h)) && w3 == Step(w2, Enter(h))
    ensures Run(w, [Accept(daytime), Join(h), Enter(h)] + rest) == Run(w3, rest)
  {
    assert [Accept(daytime), Join(h), Enter(h)] + rest ==
           [Accept(daytime)] + ([Join(h)] + ([Enter(h)] + rest));
    RunCons(w, Accept(daytime), [Join(h)] + ([Enter(h)] + rest));
    RunCons(w1, Join(h), [Enter(h)] + rest);
    RunCons(w2, Enter(h), rest);
  }

  /** The states after each of the first three steps of a session. */
  lemma OpeningStates(w: World, daytime: string) returns (w1: World, w2: World, w3: World)
    requires DefaultRoom in w.server.rooms && w.server.rooms[DefaultRoom] in w.heap
    ensures var h := w.nextConn;
      var c := w.server.rooms[DefaultRoom];
      var members := w.heap[c].geophones + [h];
      && w1 == Step(w, Accept(daytime))
      && Enabled(w1, Join(h)) && w2 == Step(w1, Join(h))
      && Enabled(w2, Enter(h)) && w3 == Step(w2, Enter(h))
      && w3 == w.(wire := w.wire + [Write(h, daytime + "\n")] + FanOut(members, Entered(ClientId)),
                  heap := w.heap[c := w.heap[c].(geophones := members)],
                  geophones := w.geophones[h := Geophone(ClientId, 0, Some(c))],
                  handlers := w.handlers[h := Active],
                  nextConn := h + 1)
      && InRoom(w3, h) && RoomOf(w3, h) == c && w3.handlers[h] == Active
  {
    var h := w.nextConn;
    var c := w.server.rooms[DefaultRoom];
    var members := w.heap[c].geophones + [h];
    w1 := Step(w, Accept(daytime));
    Greet(w, daytime);
    w2 := Step(w1, Join(h));
    JoinAll(w1);
    w3 := Step(w2, Enter(h));
    Announce(w2, h);
    assert RoomOf(w2, h) == c;
    assert w2.heap[c].geophones == members;
    UpdateTwice(w.handlers, h, Greeted, Joined);
    UpdateTwice(w.handlers, h, Joined, Active);
    UpdateTwice(w.geophones, h, Geophone(ClientId, 0, None), Geophone(ClientId, 0, Some(c)));
  }

  lemma UpdateTwice<K, V>(m: map<K, V>, k: K, a: V, b: V)
    ensures m[k := a][k := b] == m[k := b]
  {
  }

  /** The greeting step writes the time to the new connection and registers its handler. */
  lemma Greet(w: World, daytime: string)
    ensures var h := w.nextConn;
      Step(w, Accept(daytime)) ==
        w.(wire := w.wire + [Write(h, daytime + "\n")],
           geophones := w.geophones[h := Geophone(ClientId, 0, None)],
           handlers := w.handlers[h := Greeted],
           nextConn := h + 1)
  {
  }

  /** The join step of the newest handler appends it to room "all" and points it there. */
  lemma JoinAll(w1: World)
    requires w1.nextConn > 0
    requires var h := w1.nextConn - 1;
      h in w1.geophones && h in w1.handlers && w1.handlers[h] == Greeted &&
      DefaultRoom in w1.server.rooms && w1.server.rooms[DefaultRoom] in w1.heap
    ensures var h := w1.nextConn - 1;
      var c := w1.server.rooms[DefaultRoom];
      Enabled(w1, Join(h)) &&
      Step(w1, Join(h)) ==
        w1.(heap := w1.heap[c := w1.heap[c].(geophones := w1.heap[c].geophones + [h])],
            geophones := w1.geophones[h := w1.geophones[h].(currentRoom := Some(c))],
            handlers := w1.handlers[h := Joined])
  {
  }

  /** The entry step posts the entry notice to the members of the handler's room. */
  lemma Announce(w2: World, h: Handle)
    requires InRoom(w2, h) && w2.handlers[h] == Joined
    ensures Enabled(w2, Enter(h))
    ensures Step(w2, Enter(h)) ==
      w2.(wire := w2.wire + FanOut(w2.heap[RoomOf(w2, h)].geophones, Entered(ClientId)),
          handlers := w2.handlers[h := Active])
  {
  }

  /** Who receives what during a session: every connection x gets, after what it had, the
      greeting if it is the new one, then each post once per time x is in room "all" after
      the join. */
  lemma HandleClientOutbox(w: World, daytime: string, input: string, x: Handle)
    requires DefaultRoom in w.server.rooms && w.server.rooms[DefaultRoom] in w.heap
    ensures var h := w.nextConn;
      var members := w.heap[w.server.rooms[DefaultRoom]].geophones + [h];
      var r := HandleClient(w, daytime, input);
      r.Some? &&
      Outbox(r.value.wire, x) ==
        Outbox(w.wire, x) + (if x == h then [daytime + "\n"] else []) +
        Stutter(Posts(ClientId, input), Count(members, x))
  {
    var h := w.nextConn;
    var members := w.heap[w.server.rooms[DefaultRoom]].geophones + [h];
    HandleClientRun(w, daytime, input);
    var greet := [Write(h, daytime + "\n")];
    var posts := Broadcasts(members, Posts(ClientId, input));
    OutboxAppend(w.wire + greet, posts, x);
    OutboxAppend(w.wire, greet, x);
    OutboxSingle(Write(h, daytime + "\n"), x);
    OutboxBroadcasts(members, Posts(ClientId, input), x);
  }

  /** The connecting client itself sees its greeting and then every post of its session,
      its own lines included, once each: nobody wrote to it before. */
  lemma HandleClientEcho(w: World, daytime: string, input: string)
    requires Valid(w) && DefaultRoom in w.server.rooms
    ensures var r := HandleClient(w, daytime, input);
      r.Some? && Outbox(r.value.wire, w.nextConn) == [daytime + "\n"] + Posts(ClientId, input)
  {
    var h := w.nextConn;
    var members := w.heap[w.server.rooms[DefaultRoom]].geophones;
    var posts := Posts(ClientId, input);
    var r := HandleClient(w, daytime, input);
    HandleClientOutbox(w, daytime, input, h);
    assert Outbox(r.value.wire, h) ==
           Outbox(w.wire, h) + [daytime + "\n"] + Stutter(posts, Count(members + [h], h));
    FreshHandle(w, w.server.rooms[DefaultRoom]);
    OwnPosts(members, h, posts);
    assert Outbox(w.wire, h) + [daytime + "\n"] == [daytime + "\n"];
  }

  /** A connection listed once, at the end, sees each post once. */
  lemma OwnPosts(members: seq<Handle>, h: Handle, posts: seq<string>)
    requires Count(members, h) == 0
    ensures Stutter(posts, Count(members + [h], h)) == posts
  {
    CountAppend(members, [h], h);
    assert Count([h], h) == 1 by { assert [h][1..] == []; }
    StutterOnce(posts);
  }

  /** On a well-formed server the next handle has been written nothing and is in no room. */
  lemma FreshHandle(w: World, c: RoomRef)
    requires Valid(w) && c in w.heap
    ensures Outbox(w.wire, w.nextConn) == []
    ensures Count(w.heap[c].geophones, w.nextConn) == 0
  {
    OutboxUnwritten(w.wire, w.nextConn);
    var members := w.heap[c].geophones;
    forall i | 0 <= i < |members|
      ensures members[i] != w.nextConn
    {
      assert members[i] in w.geophones;
    }
    CountAbsent(members, w.nextConn);
  }

  /** A client that sends complete lines and then a fragment without a newline makes its
      room receive the entry notice, each line prefixed with its id and still ending in its
      newline, and the departure notice. */
  lemma SessionFraming(id: string, lines: seq<string>, fragment: string)
    requires forall i :: 0 <= i < |lines| ==> IsLine(lines[i])
    requires '\n' !in fragment
    ensures Posts(id, Concat(lines) + fragment) == [Entered(id)] + Relays(id, lines) + [Left(id)]
  {
    ReadLinesOfConcat(lines, fragment);
  }

  /** The fragment a client sends just before closing, without a newline, is never posted. */
  lemma FragmentDropped(id: string, lines: seq<string>, fragment: string)
    requires forall i :: 0 <= i < |lines| ==> IsLine(lines[i])
    requires '\n' !in fragment
    ensures Posts(id, Concat(lines) + fragment) == Posts(id, Concat(lines))
  {
    SessionFraming(id, lines, fragment);
    SessionFraming(id, lines, []);
    assert Concat(lines) + [] == Concat(lines);
  }

  /** A handler that has closed leaves its geophone in the room: a later post to that room
      still writes to the closed connection. */
  lemma ClosedStillReceives(w: World, h: Handle, message: string)
    requires Valid(w) && h in w.handlers && w.handlers[h] == Closed
    ensures InRoom(w, h)
    ensures var before := Outbox(w.wire, h);
      var after := Outbox(PostMessage(w, RoomOf(w, h), message).wire, h);
      |after| > |before| && after[..|before|] == before && after[|before|] == message
  {
    assert Placed(w, h);
    var c := RoomOf(w, h);
    PostMessageOutbox(w, c, message, h);
    CountPositive(w.heap[c].geophones, h);
    var k := Count(w.heap[c].geophones, h);
    assert Repeat(message, k)[0] == message;
  }
}
