# Snake client and chat server: a verified model

This is a Dafny model of the sequential core of a small networked game and
its chat-server sibling, with proofs about that model.

- **Client world reconciliation.** `NetworkController` connects to the game
  server. It reads the player id and the world size, then reads one JSON line
  per update. Each line is classified by substring (`"snake"` first, then
  `"power"`, anything else is a wall) and applied to one of the three
  id-keyed maps of the `World`:
  - a disconnected snake is removed;
  - any other snake is inserted, or merged into the stored object;
  - powerups and walls are overwritten by id.

  Key presses become single-field JSON movement commands.
- **Snakes.** `UpdateSnake` copies the seven server-authoritative fields in
  place. `CheckScore` raises the client-only `MaxScore` to the score when the
  score beats it. A snake's first sighting is stored without `UpdateSnake`, so
  `MaxScore` is the maximum over the later sightings only: the first
  sighting's score is not part of it.
- **Walls.** A wall derives its orientation and length from its endpoints. It
  tiles itself into sprite positions of side `unitSize`, starting from the
  endpoint with the lower coordinate along its axis.
- **Chat server.** A registry maps each live connection to a unique name. Each
  connection's handler negotiates a name, relays every non-empty message to
  every registered connection, and releases the name when the connection
  fails.

Modules, one per file:
- `Wrappers`: `Option`.
- `Text`: .NET `Trim`, `IsNullOrWhiteSpace` and `Contains`.
- `Points`, `Powerups`: the value types.
- `Snakes`, `Walls`, `Worlds`: the model classes.
- `Reconciliation`: the pure specification of the network loop, and `Dispatch`.
- `Network`: the `NetworkController` class.
- `Chat`: the `ChatServer` class.

Every class method is proved against a pure function over an abstract value:
- `World.View()` is a `WorldView`. `Dispatch` and `NetworkLoop` are proved
  against `ApplyRecord` and `Reconcile`.
- `GetWallPoints` is proved against `WallPoints`.
- `UpdateSnake` is proved against `Merge` and `NextMax`.
- `ChatServer.Step` states the whole new registry, session phase and send log.

The properties are lemmas about those functions and invariants the methods
keep (`World.Valid`, `ChatServer.Valid`).

The chat server's handlers run one thread per connection. Here the threads
are interleaved explicitly. Each session carries a phase, and one `Step`
runs it from one read to the next, together with every locked block in
between. So `RetryName` applies the retry loop's break test
(ChatServer/ChatServer.cs:60-63) and the final claim (lines 66-69) to the same
registry: a retry that passes the break test is always registered, and the
`continue` at line 68 never follows a break. In the code those are two
separate locks, and another session can claim the name between them.

Some things one might expect of this code do not hold, and the model keeps
the code's behaviour:
- **First sighting of a snake.** It is stored as decoded, with `MaxScore` 0,
  and `CheckScore` does not run. So applying the same update twice has the
  effect of applying it once only after that first sighting (`ApplyTwice`,
  `FirstSightingTwiceRaisesMax`). A snake seen first with score 10 and then
  with score 7 ends with `MaxScore` 7. The new-maximum result is true on the
  second update, not the first.
- **Blank names.** A blank first proposal is rejected
  (ChatServer/ChatServer.cs:56). The retry loop (lines 59-63), however, leaves
  as soon as the name is free in the live registry and does not test
  blankness again. So a blank name is registered after one rejection
  (`Chat.EmptyNameAcceptedOnRetry`).
- **Send failures.** A failed `Send` to one recipient does not only skip that
  recipient. It throws inside the sender's handler, which then releases the
  sender and drops the rest of the relay (lines 84-96). Sends never fail in
  this model (see Left out).

## Model

| member | source | states |
|---|---|---|
| Text.TrimStart | ChatServer/ChatServer.cs:48 | the result is a suffix of the input; everything dropped is .NET white space; the result does not start with white space |
| Text.TrimEnd | ChatServer/ChatServer.cs:48 | the result is a prefix of the input; everything dropped is white space; the result does not end with white space |
| Text.IsWhiteSpace | ChatServer/ChatServer.cs:48 | .NET `char.IsWhiteSpace`, behind both `Trim` and `IsNullOrWhiteSpace`: U+0009 to U+000D, space, U+0085, U+00A0, U+1680, U+2000 to U+200A, U+2028, U+2029, U+202F, U+205F and U+3000 |
| Text.IsNullOrWhiteSpace | ChatServer/ChatServer.cs:56 | a name is blank iff every character of it is white space, the empty name included |
| Text.Trim | ChatServer/ChatServer.cs:48 | the trimmed line is a slice of the line with only white space before and after it, and with white space at neither of its ends: exactly the leading and trailing white space is removed |
| Text.StartThenEndStrips | ChatServer/ChatServer.cs:48 | dropping the leading white space and then the trailing white space leaves the slice that starts where the leading white space ends, with white space at neither end |
| Text.Contains | GUI/GUI.Client/Controllers/NetworkController.cs:72-91 | a line contains a word iff the word occurs as a slice at some position |
| Text.TrimOfTrimmed | ChatServer/ChatServer.cs:59 | a string with white space at neither end is its own trim |
| Text.TrimIdempotent | ChatServer/ChatServer.cs:59 | trimming a proposed name twice is trimming it once |
| Text.TrimmedBlankIsEmpty | ChatServer/ChatServer.cs:56 | after the trim, `IsNullOrWhiteSpace` holds exactly for the empty name |
| Text.ContainsAt | GUI/GUI.Client/Controllers/NetworkController.cs:72 | an occurrence at some position makes `Contains` true |
| Snakes.MergeIsUpdateWithIdentity | GUI/GUI.Client/Models/Snake.cs:66-74 | after the merge, every wire field is the update's except the init-only id and name, which are the current snake's |
| Snakes.Merge | GUI/GUI.Client/Models/Snake.cs:66-74 | the stored snake's wire fields after `UpdateSnake`: the seven server-authoritative fields from the update, id and name kept |
| Snakes.NextMax | GUI/GUI.Client/Models/Snake.cs:82-86 | the new maximum is at least the old maximum and the score, and is one of the two |
| Snakes.MaxAfter | GUI/GUI.Client/Models/Snake.cs:84-85 | `MaxScore` after a run of updates, one `CheckScore` per update in order |
| Snakes.MaxAfterIsRunningMaximum | GUI/GUI.Client/Models/Snake.cs:84-85 | over any run of updates, `MaxScore` never falls below its start, ends at or above every score seen, and is the start or one of those scores |
| Snakes.MaxAfterAppend | GUI/GUI.Client/Models/Snake.cs:84-85 | a run of updates splits into two consecutive runs, and a longer run never ends with a lower maximum than its prefix |
| Snakes.UpdateTwiceIsUpdateOnce | GUI/GUI.Client/Models/Snake.cs:66-87 | applying the same update twice leaves the fields and maximum as one application did, and the second call reports no new maximum |
| Snakes.Snake.Decoded | GUI/GUI.Client/Models/Snake.cs:13-14 | a decoded snake carries the wire record and `MaxScore` 0, since the field is not on the wire |
| Snakes.Snake.UpdateSnake | GUI/GUI.Client/Models/Snake.cs:66-76 | exactly `body`, `dir`, `score`, `died`, `alive`, `dc` and `join` are copied, id and name are kept, the maximum becomes `max(old maximum, score)`, and the result is true iff the new score strictly beats the old maximum |
| Snakes.Snake.CheckScore | GUI/GUI.Client/Models/Snake.cs:82-87 | raises `MaxScore` to the score only when the score is strictly larger, and says whether it did |
| Walls.Length | GUI/GUI.Client/Models/Wall.cs:38-44 | the length is non-negative and is the absolute difference along the axis chosen by `p1.X == p2.X` |
| Walls.StartingPoint | GUI/GUI.Client/Models/Wall.cs:71-76 | the start is one of the endpoints, has the smaller coordinate along the axis, and is `p1` on a tie |
| Walls.StartPlusLengthReachesOtherEnd | GUI/GUI.Client/Models/Wall.cs:36-76 | from the starting point, the length reaches the other endpoint along the axis; a vertical wall's endpoints share their x |
| Walls.Tile | GUI/GUI.Client/Models/Wall.cs:59-61 | the point emitted at offset `i`: the start moved back by `unitSize / 2` on both axes, then by `i` along the wall |
| Walls.TilesFrom | GUI/GUI.Client/Models/Wall.cs:57-63 | the points the `for` loop emits from offset `i` while `i <= WallLength`, stepping by `unitSize` |
| Walls.WallPoints | GUI/GUI.Client/Models/Wall.cs:52-65 | the list `GetWallPoints` returns: the loop from offset 0 at the starting point, over the wall's length and orientation |
| Walls.TilesFromCount | GUI/GUI.Client/Models/Wall.cs:57 | the tiling loop from offset `i` runs `(len - i) / unitSize + 1` times |
| Walls.TilesFromAt | GUI/GUI.Client/Models/Wall.cs:57-62 | the k-th point of the loop from offset `i` is the sprite at offset `i + k * unitSize` |
| Walls.WallPointsCount | GUI/GUI.Client/Models/Wall.cs:52-65 | for `unitSize > 0`, the wall has `WallLength / unitSize + 1` points |
| Walls.WallPointAt | GUI/GUI.Client/Models/Wall.cs:59-62 | point k is the starting point shifted back by `unitSize / 2` on both axes and forward by `k * unitSize` along the wall only |
| Walls.WallPointsMonotone | GUI/GUI.Client/Models/Wall.cs:57-62 | across the list, the off-axis coordinate is constant and the on-axis coordinate strictly increases |
| Walls.DegenerateWallIsOnePoint | GUI/GUI.Client/Models/Wall.cs:38-57 | a wall whose endpoints coincide gives exactly one point |
| Walls.Wall.Decoded | GUI/GUI.Client/Models/Wall.cs:11-31 | a decoded wall carries its id and endpoints, with length 0 and not vertical |
| Walls.Wall.SetWallLength | GUI/GUI.Client/Models/Wall.cs:36-45 | afterwards the wall is vertical iff `p1.X == p2.X`, and `WallLength` is the length along that axis |
| Walls.Wall.GetStartingPoint | GUI/GUI.Client/Models/Wall.cs:71-76 | returns the endpoint that is lower along the recorded orientation's axis, `p1` on a tie |
| Walls.Wall.GetWallPoints | GUI/GUI.Client/Models/Wall.cs:52-65 | the loop returns exactly `WallPoints(p1, p2, unitSize)`, which depends only on the init-only endpoints, so repeated calls agree |
| Worlds.World.constructor | GUI/GUI.Client/Models/World.cs:31-36 | a new world has empty snake, wall and powerup maps and world size 0 |
| Worlds.World.ValidViewIsWellKeyed | GUI/GUI.Client/Models/World.cs:16-26 | each of the three maps holds at most one entity per id, stored under its own id |
| Reconciliation.ApplyRecord | GUI/GUI.Client/Controllers/NetworkController.cs:72-108 | one decoded record's effect on the world: a disconnected snake is removed, a live snake is inserted with maximum 0 or merged by `UpdateSnake`, a powerup or wall is stored under its id |
| Reconciliation.Reconcile | GUI/GUI.Client/Controllers/NetworkController.cs:64-115 | the loop's effect on the world: lines are decoded and applied in order until the first line that does not decode, where the loop disconnects |
| Reconciliation.Classify | GUI/GUI.Client/Controllers/NetworkController.cs:72-102 | a line is a snake iff it contains "snake"; a powerup iff it contains "power" but not "snake"; a wall iff it contains neither |
| Reconciliation.SnakeNamedPowerIsSnake | GUI/GUI.Client/Controllers/NetworkController.cs:72-91 | every line that contains both "snake" and "power" is read as a snake, and decodes, if at all, to a snake record |
| Reconciliation.PowerupNamedSnakeLine | GUI/GUI.Client/Controllers/NetworkController.cs:72-91 | such lines exist: a snake named "powerup" contains both words and is read as a snake |
| Reconciliation.Decode | GUI/GUI.Client/Controllers/NetworkController.cs:72-102 | decoding fails exactly when the deserializer of the kind the classification chose fails; otherwise the record is that deserializer's value, of that kind |
| Reconciliation.DisconnectRemoves | GUI/GUI.Client/Controllers/NetworkController.cs:78-87 | a snake record with `dc` set leaves its id absent and every other snake unchanged |
| Reconciliation.FirstSightingInserts | GUI/GUI.Client/Controllers/NetworkController.cs:80 | a live snake with a new id is stored as decoded, with maximum 0 |
| Reconciliation.LaterSightingMerges | GUI/GUI.Client/Controllers/NetworkController.cs:80-83 | a live snake with a known id keeps the stored id, name and maximum history, takes the other fields from the record, and its maximum only grows |
| Reconciliation.PowerupOverwrites | GUI/GUI.Client/Controllers/NetworkController.cs:91-98 | a powerup record is stored under its id whether or not `died` is set, and no powerup is removed |
| Reconciliation.WallOverwrites | GUI/GUI.Client/Controllers/NetworkController.cs:100-107 | a wall record replaces the stored wall wholesale |
| Reconciliation.OneMapPerRecord | GUI/GUI.Client/Controllers/NetworkController.cs:72-108 | one record changes at most the map of its own kind and never the world size |
| Reconciliation.ApplyKeepsWellKeyed | GUI/GUI.Client/Controllers/NetworkController.cs:72-108 | applying a record keeps every entry under its own id |
| Reconciliation.ApplyTwice | GUI/GUI.Client/Controllers/NetworkController.cs:72-108 | applying a record twice is applying it once, except on the first sighting of a live snake |
| Reconciliation.FirstSightingTwiceRaisesMax | GUI/GUI.Client/Controllers/NetworkController.cs:78-83 | on a first sighting with positive score, the maximum stays 0; repeating the record raises it to the score |
| Reconciliation.ReconcileAppend | GUI/GUI.Client/Controllers/NetworkController.cs:66-109 | when a prefix of the stream decodes fully, reading it and then the rest is reading the rest from where the prefix left the world |
| Reconciliation.StopsAtUndecodable | GUI/GUI.Client/Controllers/NetworkController.cs:110-113 | nothing after the first undecodable line is applied |
| Reconciliation.ReconcileKeepsWellKeyed | GUI/GUI.Client/Controllers/NetworkController.cs:66-115 | the loop keeps every entry under its own id and never changes the world size |
| Reconciliation.ReconcileNeverDropsPowerupsOrWalls | GUI/GUI.Client/Controllers/NetworkController.cs:91-107 | once seen, a powerup or wall id stays for the rest of the session |
| Reconciliation.Dispatch | GUI/GUI.Client/Controllers/NetworkController.cs:72-108 | handling one decoded record changes the world's value exactly as `ApplyRecord` says and keeps the world valid |
| Reconciliation.StorePowerup | GUI/GUI.Client/Controllers/NetworkController.cs:93-98 | the locked powerup block stores the record under its id, as `ApplyRecord` says, and keeps the world valid |
| Reconciliation.StoreWall | GUI/GUI.Client/Controllers/NetworkController.cs:102-107 | the locked wall block stores a freshly decoded wall under its id, as `ApplyRecord` says, and keeps the world valid |
| Reconciliation.DispatchSnake | GUI/GUI.Client/Controllers/NetworkController.cs:74-89 | the locked snake block removes, inserts or merges exactly as `ApplyRecord` says |
| Reconciliation.MergeInto | GUI/GUI.Client/Controllers/NetworkController.cs:82 | only the stored snake with the record's id changes, to its `UpdateSnake` result |
| Network.KeyDirection | GUI/GUI.Client/Controllers/NetworkController.cs:123-141 | `a`/`ArrowLeft` map to left, `w`/`ArrowUp` to up, `s`/`ArrowDown` to down, `d`/`ArrowRight` to right, each iff, and every other key to nothing |
| Network.MoveCommand | GUI/GUI.Client/Controllers/NetworkController.cs:127-139 | the command line for a direction, `{"moving":"<direction>"}` |
| Network.MoveCommandInjective | GUI/GUI.Client/Controllers/NetworkController.cs:127-139 | different directions send different command lines |
| Network.NetworkController.constructor | GUI/GUI.Client/Controllers/NetworkController.cs:16-26 | a new controller is disconnected, with player id 0 and nothing read or sent |
| Network.NetworkController.Disconnect | GUI/GUI.Client/Controllers/NetworkController.cs:55-58 | afterwards the controller is not connected |
| Network.NetworkController.Connect | GUI/GUI.Client/Controllers/NetworkController.cs:35-50 | the name is sent first; the first line read becomes the player id and the second the world size; only then does the loop reconcile the rest of the stream; a failure at any step keeps what was assigned so far and starts no loop |
| Network.NetworkController.Handshake | GUI/GUI.Client/Controllers/NetworkController.cs:39-42 | succeeds iff the connection opens and both lines parse; the name is sent once the connection opens, the first line becomes the player id, the second is returned as the world size, and the rest of the stream is left unread |
| Network.NetworkController.NetworkLoop | GUI/GUI.Client/Controllers/NetworkController.cs:64-115 | the loop ends disconnected, with the world equal to `Reconcile` of its start over the unread lines, and the world still valid |
| Network.NetworkController.ReceiveLine | GUI/GUI.Client/Controllers/NetworkController.cs:68-113 | one pass of the loop: a read or decode failure disconnects, otherwise the record is applied and one line is consumed; either way, the world `Reconcile` reaches from here is unchanged |
| Network.NetworkController.KeyHandler | GUI/GUI.Client/Controllers/NetworkController.cs:121-142 | a bound key appends its movement command to what was sent; an unbound key sends nothing |
| Chat.Prompt | ChatServer/ChatServer.cs:58 | the rejection line `username [<name>] is taken or invalid, please re-enter.` |
| Chat.Welcome | ChatServer/ChatServer.cs:72 | the line `user: [<name>] connected` |
| Chat.Relayed | ChatServer/ChatServer.cs:86 | the relayed line `[<sender>]: <message>` |
| Chat.ClaimKeepsNamesUnique | ChatServer/ChatServer.cs:66-69 | registering a name that no connection holds keeps all names distinct |
| Chat.ReleaseFreesName | ChatServer/ChatServer.cs:92-95 | removing a connection keeps names distinct, and no remaining connection holds its name |
| Chat.RelayBatch | ChatServer/ChatServer.cs:76-87 | an empty message sends nothing; any other message goes to every connection of the snapshot exactly once, sender included, as `[<sender>]: <message>`, and to no one else |
| Chat.ChatServer.constructor | ChatServer/ChatServer.cs:17 | the registry starts empty, with no sessions and nothing sent |
| Chat.ChatServer.Accept | ChatServer/ChatServer.cs:37-48 | a new connection's session starts by reading a name |
| Chat.ChatServer.Claim | ChatServer/ChatServer.cs:66-73 | a name is registered only if no connection holds it now, followed by `user: [<name>] connected`; otherwise the session reads a fresh name without a prompt |
| Chat.ChatServer.Release | ChatServer/ChatServer.cs:90-96 | only the failing connection's entry is removed (a no-op if it never registered), its name becomes free, and its session ends |
| Chat.ChatServer.ProposeName | ChatServer/ChatServer.cs:46-73 | the first trimmed proposal is refused with `username [<name>] is taken or invalid, please re-enter.` when a connection holds it or it is blank, keeping the snapshot of names; otherwise it is claimed |
| Chat.ChatServer.RetryName | ChatServer/ChatServer.cs:56-73 | a retry is claimed as soon as no connection holds the name now, blank or not; it is prompted again while the snapshot or blankness still rejects it; otherwise the session reads a fresh name with no prompt |
| Chat.ChatServer.Relay | ChatServer/ChatServer.cs:76-87 | an active session's trimmed message is relayed to every registered connection exactly once, or not at all when empty |
| Chat.ChatServer.Step | ChatServer/ChatServer.cs:37-98 | one read of one session: the first name is trimmed, then rejected with the prompt if taken or blank, else claimed; a retry is claimed once the name is free in the live registry, even if blank; a failed read releases; an active session relays non-empty messages to every registered connection; names stay distinct and other sessions do not change |

## Left out

- Threads and locks: the threads are interleaved one `Step` at a time, and a `Step` runs every locked block between two reads against one registry. So the first attempt's snapshot (ChatServer/ChatServer.cs:51-54) and its final check (lines 66-69) see the same registry, and so do a retry's break test (lines 60-63) and its final check. The code takes those as separate locks, so another session can claim the name in between and the `continue` at line 68 can run after a break. In the model the `continue` is reached only when a retry leaves the loop through its condition at line 56 (the name is held in the live registry but not in the stale snapshot, and is not blank). It never follows a break, and never follows the first attempt.
- Network.NetworkController.Connect: the receive thread (GUI/GUI.Client/Controllers/NetworkController.cs:44) runs to completion inside the model's `Connect`, which returns disconnected with the stream consumed. The code's `Connect` returns as soon as the thread starts, and `KeyHandler` sends happen while the loop runs; that interleaving is not modelled.
- JSON decoding (System.Text.Json): the three deserializers are function parameters, and `None` stands for the exception a malformed line raises.
- `int.Parse` in the handshake: a function parameter, with `None` for a line that does not parse.
- The transport (`NetworkConnection`, `Server.StartServer`): reads become an input sequence or an `Option<string>` per read; sends become an appended log.
- Chat.ChatServer.Step: sends never fail. In the code, a failed send in a relay throws in the sender's handler, which then releases the sender; that path is not modelled.
- Walls.Wall.GetWallPoints: does not model 32-bit `int` wrap-around of `i += unitSize`, of `sp.X - unitSize / 2` and `sp.Y - unitSize / 2`, of `x += i` and `y += i` (GUI/GUI.Client/Models/Wall.cs:57-61), or of the length computation, because the model's integers are unbounded. A precondition requires `unitSize > 0`. In the code a zero `unitSize` grows the list until memory runs out, and a negative one drives `i` down past `int.MinValue`, after which the loop ends or memory runs out. The only caller passes `SpriteSize`, which is 50 (GUI/GUI.Client/Pages/SnakeGUI.cs:90 and 241).
- Walls.Length: does not model 32-bit `int` wrap-around of the subtraction `p1.Y - p2.Y` or `p1.X - p2.X` (GUI/GUI.Client/Models/Wall.cs:40 and 44), or `Math.Abs(int.MinValue)` throwing, because the model's integers are unbounded. For endpoints far apart the code's length differs: `p1.Y = int.MaxValue` and `p2.Y = -2` give `int.MaxValue` in the code, where the model gives 2^31 + 1.
- Snakes.Snake.UpdateSnake: `body` is copied as a value, so the aliasing between the two snakes' `List<Point2D>` objects is not modelled.
- Nothing in the model reads `died` on a powerup or the `alive`, `died` and `join` flags on a snake; they are carried as data only, as in the code.
- The GUI page (GUI/GUI.Client/Pages/SnakeGUI.cs) is not part of this model. It is drawing, JavaScript interop and a render loop.
- WebServer/Program.cs is not part of this model. It is commented out, and would be HTTP and database I/O anyway.
