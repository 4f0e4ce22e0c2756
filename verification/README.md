# Room membership and fan-out of a line-based TCP chat server

This project models, in Dafny, the core of a small Go chat server (`server.go`). Clients
connect, each gets a "geophone" (a participant), every geophone joins the room `"all"`, and
every line a client sends is written to every member of that room. What is modelled:

- **Rooms and the registry.** `serverInfo.rooms` maps a room name to a `*room`. Rooms live on
  a modelled heap (`World.heap`, keyed by `RoomRef`), so `newRoom` filing a second room under
  a name that is taken leaves the first room object alive and its members pointing at it,
  exactly as the Go pointers do.
- **Participants and connections.** A `Handle` identifies one accepted connection and the
  geophone built for it. Every `conn.Write` is one `Write(conn, text)` appended to a single
  log, `World.wire`, in the order the writes happen; `Outbox(wire, h)` is what connection `h`
  was sent.
- **`addGeophone`** appends to the member list with no duplicate check and sets the
  back-reference; **`postMessage`** writes the message to every member, in member order, the
  sender included.
- **`handleClient`** as a state machine: each of its effects on shared state (the greeting
  write, which takes no lock; the join and each post, which hold the room's mutex) is one
  atomic `Event`; `Run` applies any sequence of events, so the events of
  many connections may interleave in any order. `Script` is the sequence one connection's
  goroutine performs; `HandleClient` runs it alone.
- **Line framing.** `ReadString('\n')`, the read loop that repeats it until `io.EOF`, and
  `promptUserStr`'s `strings.TrimSuffix`.

Where the documented intent of this server and its code differ, the model follows the code: a
second `newRoom` with the same name replaces the first (no duplicate error); `addGeophone`
appends a geophone that is already a member again; no operation ever removes a member, so a
closed connection stays in its room; `postMessage` writes to the sender too, although its
comment says "all other clients"; the room's `messages` field is never written; and the id
of every participant is the hard-coded `"geophone"`.

Modules: `Wrappers` (Option), `Text` (line framing), `Wire` (writes, outboxes, fan-out),
`Server` (data model, `newRoom`, `addGeophone`, `postMessage`), `Session` (`handleClient`),
`Prompt` (`promptUserStr`).

## Model

| member | source | states |
|---|---|---|
| Server.NewRoom | server.go:128-131 | the name maps to a freshly allocated room with that name, no members and no messages; a room the name mapped to before is replaced in the registry but its object is untouched; every other name keeps its room; geophones and connections are unchanged |
| Server.NewRoomKeeps | server.go:128-131 | creating a room keeps the server well formed, adds no history, and removes no member from any room |
| Server.Boot | server.go:66-68 | the state main builds is well formed, has no history, and its registry holds exactly one name, `"all"`, filed under an empty room; there are no geophones, no handlers and no writes yet |
| Server.AddGeophone | server.go:46-52 | the member list becomes the old one with `u` appended, so earlier members keep their order and `u` occurs once more even if it was already a member; `u.currentRoom` points at the room; name and messages of the room, all other rooms and geophones, the registry and the connections are unchanged |
| Server.AddGeophoneKeeps | server.go:46-52 | adding a geophone keeps the server well formed, adds no history, and only appends to the room's member list |
| Server.AddTwiceDeliversTwice | server.go:46-51 | with no duplicate check, a geophone added twice is listed twice and a later post writes to it twice |
| Server.PostMessage | server.go:35-42 | exactly one write per member is appended, the i-th going to the i-th member, sender included; earlier writes, members, messages, registry and geophones are unchanged |
| Server.PostMessageOutbox | server.go:35-42 | every connection is sent the message once per time it is listed in the room, after what it had; a connection outside the room is sent nothing |
| Server.PostMessageKeeps | server.go:35-42 | posting keeps the server well formed: it writes only to allocated connections |
| Wire.OutboxFanOut | server.go:39-41 | one fan-out loop sends a connection the message exactly as many times as it occurs among the receivers |
| Wire.OutboxBroadcasts | server.go:112-122 | several fan-outs to the same members send each connection every message, in order, once per time it is a member |
| Text.ReadString | server.go:114-117 | a read returns text up to and including the first newline together with the rest, or, when there is no newline, all of the text with end of stream |
| Text.ReadStringOfLine | server.go:114 | reading text that starts with a complete line returns exactly that line |
| Text.ReadLines | server.go:113-121 | the read loop splits the input into complete lines, in order, and a newline-free final fragment, which joined back give the input |
| Text.ReadLinesOfConcat | server.go:113-121 | complete lines followed by a newline-free fragment are split back into exactly those lines and that fragment |
| Text.TrimSuffix | server.go:85 | when the text ends with the suffix the result followed by the suffix is the text; otherwise the text comes back unchanged |
| Prompt.PromptUserStr | server.go:82-87 | the prompt is written to the connection; the answer never holds a newline; without end of stream the input is the answer, one newline and the rest; at end of stream the answer is all of the input, unchanged |
| Prompt.PromptUserStrReadsAnswer | server.go:84-85 | an answer sent with its newline is read back exactly and the text after it stays unread |
| Session.StepKeeps | server.go:99-123 | every atomic step of a handler keeps the server well formed (joined geophones listed in the room they point at), keeps room histories empty and only appends to member lists |
| Session.RunKeeps | server.go:99-123 | any interleaving of the handlers' steps keeps the server well formed, never writes a room history and never removes a member from a room |
| Session.RunRelays | server.go:113-122 | an active handler relays each complete line to its room in order and then posts the departure notice, with the member list fixed meanwhile |
| Session.OpeningStates | server.go:101-112 | the first three steps write the greeting to the new connection, build its geophone with id `"geophone"`, append it to room `"all"` and point it there, and post the entry notice to the room's members; each step can happen where it is reached |
| Session.HandleClientRun | server.go:99-123 | a lone session on a server with room `"all"` ends with the greeting written, the geophone appended to `"all"` and still there, the handler closed, and the session's posts broadcast in order to the members as of the join; nothing else changes |
| Session.HandleClientOutbox | server.go:110-122 | during a lone session every connection is sent, after what it had, the greeting if it is the new one, then each post once per time it is listed in `"all"` |
| Session.HandleClientEcho | server.go:112-122 | the connecting client is sent its greeting, its own entry notice, each of its own lines prefixed with its id, and its own departure notice, in that order |
| Session.SessionFraming | server.go:112-122 | a session sending complete lines and then a fragment posts the entry notice, `id + ": " + line` for each line with its newline kept, and the departure notice |
| Session.FragmentDropped | server.go:114-117 | a final fragment without a newline, read together with end of stream, is never posted |
| Session.ClosedStillReceives | server.go:110-122 | a closed handler's geophone is still in its room, so a later post there still writes the message to its connection |

## Left out

- The listener, address resolution, the accept loop and the goroutine spawn in `main` (server.go:54-78): network and process setup. Accepting a connection is the `Accept` event; any interleaving of goroutines is any order of events.
- The mutex of `room`: `addGeophone` and `postMessage` each hold it and are one atomic step. The mutex of `serverInfo` is never taken; the registry is written only by `newRoom` in `main` (server.go:68, server.go:130) before the accept loop starts, so the unguarded lookup at server.go:110 never races with a write. The three steps before the read loop (greeting write, join, entry notice) are separate events, as in the source, so other connections' steps may fall between them.
- `time.Now()` (server.go:101): the greeting text is a parameter, `daytime`.
- `checkError` and `os.Exit` (server.go:133-140): a read error other than end of stream ends the whole process; no event models it.
- `promptUserInt` (server.go:91-97): its number parsing is `fmt.Fscan`, library code outside this model.
- `conn.Close` (server.go:100) and write errors: a write to a closed connection is still recorded in its outbox, although in Go it fails and the error is ignored.
- Strings are sequences of Dafny `char`, one `char` standing for one byte of Go's `string` and `[]byte`. No behaviour depends on the difference: the only byte examined is `'\n'`, and text is otherwise only concatenated and copied.
- The unused `age` field is kept and is always 0.
- A missing room `"all"` (server.go:110): the nil dereference is not modelled; `Join` is simply not enabled, and `Run` returns `None`.
- Prompt.PromptUserStr: a fresh `bufio.Reader` may read past the newline and drop what it buffered; the model's `rest` is what an unbuffered read would leave. The same holds for the fresh reader of every iteration of the read loop (server.go:114), which the model reads as one unbuffered stream of lines.
