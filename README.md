# GoGame platformer core, in Dafny

This project models the game logic of GoGame, a small networked 2D platformer.
Players connect to a game server over a bidirectional stream. Each player's
character is simulated on the server and, as a twin, on the player's own client.

The model covers five pieces:

- **The server's character** (`server_character.dfy`). One fixed-timestep
  physics tick runs these steps in order:
  - land on the first platform the character overlaps;
  - apply gravity and air drag, or ground friction;
  - snap small forces to zero;
  - move the character, clamped to the world;
  - report the new position only when it changed.

  The character also handles the commands its client sends (QUIT, JOINED,
  JUMP) and its client's position reports, which pass an anti-cheat skew guard
  first. Each step is a pure function (`Land`, `Integrate`, `Snap`, `Move`,
  composed as `Physics`). The `Character` class mutates its fields step by step
  and is proved equal to those functions.
- **The client's twin character** (`client_character.dfy`). It uses the same
  steps and adds keyboard input: space jumps, guarded by the global debounce
  latch, and the left and right keys steer. Key states are parameters of a
  frame.
- **The client's network state** (`network_client.dfy`). It holds its own user
  identifier (-1 until the server assigns one) and a roster of the other
  players keyed by identifier. It also builds the messages the client sends.
  A position update about an unknown player dereferences nil in the source;
  here that case is an explicit `NilDereference` outcome.
- **The two game servers.**
  - `game_server.dfy` covers the server that assigns identifiers. It registers
    each connection under the key `user-id`, introduces the newcomer and every
    other player to each other, and fans each tick out to everyone but the
    origin.
  - `legacy_server.dfy` covers the older server. It keys players by the bare
    user name, stamps every update with identifier 0 and sends it to everyone,
    the origin included.

  A stream send is an append to the server's `outbox`, addressed by registry
  key. `Inbox(outbox, key)` is what was sent to whichever character was
  registered under `key` at the time. On the identifier server a key is never
  reused, so that is one stream. On the older server it may not be: see
  "## Left out".
- **End to end** (`handshake.dfy`). These lemmas show what a client's state
  becomes after it receives each server's messages:
  - the newcomer learns the whole roster;
  - peers learn of the newcomer;
  - every client follows a mover;
  - a fresh client of the older server dereferences nil on the first move it
    hears of.

`levels.dfy` holds the single shipped level. `protocol.dfy` holds the message
envelopes, Go's `int32` with its wrap-around, and the outbox.
`wrappers.dfy` holds `Option` and `Result`.

Two modelling choices apply throughout:

- **Map iteration order.** Go leaves the order of `range` over a map
  unspecified. So every loop over the `players` map takes an order as an
  explicit parameter `order`, with the precondition `EnumeratesKeys(order,
  players.Keys)`. The tick's broadcast enters a new `range` for each update, and
  each pass may have its own order. The model uses one order for all the
  passes of a tick. That loses nothing, because a tick emits at most one update
  (`ServerCharacter.Emission`).
- **Numbers.** `float64` values are modelled as `real`. Identifiers are an
  `int32` newtype, and the server's counter wraps explicitly.

JUMP from a platform sets only the vertical force
(`server/platformer/character.go:122-124`). The movement step of the next tick
clears `grounded`, and `ServerCharacter.DoubleJumpOnce` proves that sequence.

## Model

| member | source | states |
|---|---|---|
| Protocol.WrappingIncrement | client/vendor/github.com/grevian/GoGame/server/platformer/platformer.go:61 | `identifiers += 1` on an int32: one more below INT32_MAX, INT32_MIN at the top |
| Protocol.Stamp | client/vendor/github.com/grevian/GoGame/server/platformer/platformer.go:133-134 | same number of updates, each carrying the given user id, payloads unchanged |
| Protocol.InboxAppend | server/platformer/character.go:135-147 | a stream receives the sends of two successive batches in order: first batch's, then second's |
| Protocol.InboxOfOthers | server/platformer/character.go:135-147 | sends addressed only to other streams deliver nothing to this one |
| Protocol.InboxOutsideAddressees | server/platformer/character.go:135-147 | a stream to which none of the sends was addressed has received nothing |
| Levels.NewPlatform | src/platformer_service/service/level.go:13-17 | the platform is at (x, y) with friction 2 |
| Levels.NewLevel | src/platformer_service/service/level.go:19-30 | exactly four platforms in the order (20,150), (390,250), (45,500), (120,360), all with friction 2; world 800 wide and 600 high |
| ServerCharacter.Clamp | server/platformer/character.go:243-248 | the result is 0 or the value itself, and it is 0 exactly when the magnitude is within the range |
| ServerCharacter.ClampIdempotent | server/platformer/character.go:243-248 | clamping twice equals clamping once |
| ServerCharacter.NewBody | server/platformer/character.go:42-52 | starts at (x, y), airborne, both forces zero (so snapped), 20x20, no double jump |
| ServerCharacter.Overlaps | server/platformer/character.go:172-173 | the character's bottom edge is at or below the platform's top, its top edge is at or above the platform's bottom (10 units lower), and x lies over the 100-wide platform |
| ServerCharacter.FirstOverlap | server/platformer/character.go:171-178 | the index the landing loop breaks at: it overlaps, no earlier platform does; none exactly when no platform overlaps |
| ServerCharacter.Land | server/platformer/character.go:170-180 | grounded: unchanged; airborne over no platform: unchanged; airborne over some platform: grounded, double jump cleared, vertical force 0, nothing else changed |
| ServerCharacter.Decay | server/platformer/character.go:188-199 | a horizontal force moves by the step towards zero; a zero force stays zero |
| ServerCharacter.Integrate | server/platformer/character.go:183-200 | only forces change; airborne: vertical force becomes min(f + 0.08, 9.2), so at most 9.2, and horizontal decays by 0.7/6; grounded: vertical kept, horizontal decays by 0.7/2 |
| ServerCharacter.Snap | server/platformer/character.go:203-204 | afterwards no force lies inside its snap band (0.2 horizontal, 0.02 vertical); an already snapped state is unchanged |
| ServerCharacter.MoveAxis | server/platformer/character.go:207-222 | zero force: coordinate unchanged; nonzero: pos + force when that is within [0, limit], `limit` when it is beyond, 0 when it is below (for a non-negative limit); never above the limit |
| ServerCharacter.Move | server/platformer/character.go:207-222 | forces, size and jump flag unchanged; grounded afterwards exactly when it was grounded and both forces are zero; each coordinate moved per its force |
| ServerCharacter.Physics | server/platformer/character.go:164-222 | after a tick no force is inside its snap band, the size is unchanged, and the double-jump flag is never newly set |
| ServerCharacter.Emission | server/platformer/character.go:225-239 | at most one update, present exactly when the position changed, carrying the new X and Y |
| ServerCharacter.ApplyJump | server/platformer/character.go:122-129 | grounded: vertical force -9.2/2 and grounded left set; airborne without double jump: flag set, vertical force -9.2/3; airborne with double jump: unchanged |
| ServerCharacter.ApplyCommand | server/platformer/character.go:112-133 | JOINED: position (140, 310) and both forces 0, flags untouched; JUMP: the three-case jump; QUIT and unknown commands: unchanged |
| ServerCharacter.Skew | server/platformer/character.go:92-93 | non-negative and never more than the true distance; zero for mirrored coordinates (x against -x), which the guard therefore accepts |
| ServerCharacter.AdoptReport | server/platformer/character.go:90-108 | only forces change; a skew above 150 on either axis leaves everything unchanged, otherwise the forces become (VelX, VelY) |
| ServerCharacter.PhysicsKeepsInWorld | server/platformer/character.go:207-222 | a character inside the world stays inside it after a tick |
| ServerCharacter.PhysicsMovesByForce | server/platformer/character.go:207-222 | per axis: a nonzero snapped force clears grounded and clamps the coordinate into [0, dim - size]; a zero one leaves the coordinate alone |
| ServerCharacter.RestingIsFixedPoint | server/platformer/character.go:164-239 | a grounded character with zero forces is left exactly as it is and emits nothing |
| ServerCharacter.GravityStrictlyIncreases | server/platformer/character.go:183-185 | in free fall below the cap the vertical force strictly grows and stays at most 9.2 |
| ServerCharacter.AirborneForceCapped | server/platformer/character.go:183-185 | whenever the character is airborne after the landing test, the tick ends with the vertical force at most 9.2 |
| ServerCharacter.FrictionNeverAmplifies | server/platformer/character.go:188-204 | from a snapped state, drag or friction never enlarge the horizontal force and strictly shrink a nonzero one |
| ServerCharacter.FrictionOvershootsUnsnappedForce | server/platformer/character.go:195-204 | from an unsnapped grounded force 0.1, friction flips it past zero to -0.25 |
| ServerCharacter.JumpIdempotent | server/platformer/character.go:122-129 | a second JUMP before the next tick adds nothing |
| ServerCharacter.DoubleJumpOnce | server/platformer/character.go:122-129 | after a ground jump and a tick the character is airborne; one further JUMP is the reduced double jump and a third is a no-op |
| ServerCharacter.SpawnFalls | server/platformer/character.go:170-185 | at (140, 310) in the shipped level no platform is under the character, so its first tick falls by 0.08 |
| ServerCharacter.CommandKeepsInWorld | server/platformer/character.go:112-133 | commands keep a character inside any world large enough to hold the spawn point |
| ServerCharacter.ReportNeverMoves | server/platformer/character.go:90-108 | a position report, accepted or rejected, never moves the character |
| ServerCharacter.LevelPlatformsInsideWorld | src/platformer_service/service/level.go:22-25 | with the landing test's 100x10 box, every shipped platform lies inside [0,800]x[0,600] |
| ServerCharacter.Character.NewNetworkCharacter | server/platformer/character.go:42-58 | starts at (x, y), airborne, forces zero, 20x20, no double jump |
| ServerCharacter.Character.CommandUpdate | server/platformer/character.go:110-133 | the fields become `ApplyCommand` of the old state |
| ServerCharacter.Character.PositionUpdate | server/platformer/character.go:90-108 | the fields become `AdoptReport` of the old state |
| ServerCharacter.Character.HandleClientUpdate | server/platformer/character.go:76-83 | command payloads go to the command handler, positions to the report handler, anything else changes nothing |
| ServerCharacter.Character.Tick | server/platformer/character.go:149-161 | the fields become `Physics` of the old state and the result is `Emission` of old and new |
| ServerCharacter.Character.LandingTest | server/platformer/character.go:170-180 | the fields become `Land` of the old state; the loop stops at `FirstOverlap` and runs only while airborne |
| ServerCharacter.Character.UpdatePhysics | server/platformer/character.go:164-240 | the fields become `Physics` of the old state; the returned updates are `Emission` of old and new |
| ServerCharacter.Character.GravityAndFriction | server/platformer/character.go:183-200 | the fields become `Integrate` of the old state |
| ServerCharacter.Character.SnapAndMove | server/platformer/character.go:203-222 | the fields become `Move(Snap(...))` of the old state |
| ClientCharacter.Steer | src/platformer_service/vendor/github.com/grevian/GoGame/client/character.go:108-122 | only the horizontal force changes: left subtracts 0.7 grounded or 0.35 airborne, floored at -6; right adds it, capped at 6; both keys apply left then right; no key leaves it alone; a force within [-6, 6] stays there |
| ClientCharacter.Frame | src/platformer_service/vendor/github.com/grevian/GoGame/client/character.go:56-146 | the latch ends equal to the space key; the body ends snapped with its size unchanged; the double-jump flag is only newly set by a triggering press |
| ClientCharacter.DebounceFollowsKey | src/platformer_service/vendor/github.com/grevian/GoGame/client/character.go:92-97 | the latch ends each frame equal to the space key, and space triggers exactly when pressed with the latch clear |
| ClientCharacter.HeldSpaceJumpsOnce | src/platformer_service/vendor/github.com/grevian/GoGame/client/character.go:92-105 | a second frame with space still held behaves as if space were up |
| ClientCharacter.FreshPressJumps | src/platformer_service/vendor/github.com/grevian/GoGame/client/character.go:96-105 | a fresh press applies the server's three-case jump rule |
| ClientCharacter.FrameKeepsInWorld | src/platformer_service/vendor/github.com/grevian/GoGame/client/character.go:124-144 | a frame keeps the character inside the world and leaves no force inside its snap band |
| ClientCharacter.IdleFrameIsServerTick | src/platformer_service/vendor/github.com/grevian/GoGame/client/character.go:56-146 | with no key pressed a client frame equals the server's tick |
| ClientCharacter.SpaceDebounce.constructor | src/platformer_service/vendor/github.com/grevian/GoGame/client/character.go:29 | the latch starts clear |
| ClientCharacter.Character.NewCharacter | src/platformer_service/vendor/github.com/grevian/GoGame/client/character.go:31-47 | starts at (x, y), airborne, forces zero, 20x20, no double jump |
| ClientCharacter.Character.LandingTest | src/platformer_service/vendor/github.com/grevian/GoGame/client/character.go:59-69 | the fields become `Land` of the old state, as on the server |
| ClientCharacter.Character.GravityAndFriction | src/platformer_service/vendor/github.com/grevian/GoGame/client/character.go:72-89 | the fields become `Integrate` of the old state, as on the server |
| ClientCharacter.Character.JumpInput | src/platformer_service/vendor/github.com/grevian/GoGame/client/character.go:91-105 | a triggering press applies `ApplyJump`, and the latch is updated from the key |
| ClientCharacter.Character.SteerInput | src/platformer_service/vendor/github.com/grevian/GoGame/client/character.go:107-122 | the fields become `Steer` of the old state |
| ClientCharacter.Character.SnapAndMove | src/platformer_service/vendor/github.com/grevian/GoGame/client/character.go:124-144 | the fields become `Move(Snap(...))` of the old state |
| ClientCharacter.Character.Update | src/platformer_service/vendor/github.com/grevian/GoGame/client/character.go:56-146 | the fields and the latch become `Frame` of the old state, the latch and the keys |
| Network.NewPlayer | client/network.go:45-58 | an unnamed player at (0, 0) |
| Network.OnCommand | client/network.go:155-175 | first JOINED adopts the id and adds nobody; later JOINED, even carrying the own id, adds or replaces that entry with a fresh player; QUIT for the own id changes nothing, for another id removes exactly that entry |
| Network.OnPosition | client/network.go:177-189 | own id: unchanged; a nil dereference exactly when the id is another player missing from the roster; a known other id is applied, and only that player's X and Y change |
| Network.OnUpdate | client/network.go:138-143 | a nil dereference exactly for a position about another id missing from the roster; a named client keeps its id |
| Network.Replay | client/network.go:131-143 | no updates: unchanged; a nil dereference needs a position update among those received |
| Network.ReplayAppend | client/network.go:131-143 | receiving two batches equals receiving the first, then the second from the resulting state; a nil dereference ends it |
| Network.IdentityIsStable | client/network.go:165-170 | once named, no sequence of updates renames the client |
| Network.NetworkClient.NewNetworkClient | client/network.go:111-121 | identifier -1, empty roster, nothing sent, clock 0 |
| Network.NetworkClient.AddPlayer | client/network.go:191-194 | the entry for the id becomes a fresh player; nothing else changes |
| Network.NetworkClient.RemovePlayer | client/network.go:196-199 | the entry for the id is deleted; nothing else changes |
| Network.NetworkClient.ProcessCommand | client/network.go:155-175 | the state becomes `OnCommand` of the old state |
| Network.NetworkClient.ProcessPositionUpdate | client/network.go:177-189 | the state becomes `OnPosition` of the old state, or the nil dereference is reported and nothing changes |
| Network.NetworkClient.HandleServerUpdate | client/network.go:138-143 | the receive loop's dispatch agrees with `OnUpdate` |
| Network.NetworkClient.Reset | client/network.go:201-220 | sends QUIT and then JOINED, and nothing else |
| Network.NetworkClient.Update | client/network.go:222-243 | sends one Position carrying the character's X, Y and both forces |
| GameServer.Decimal | client/vendor/github.com/grevian/GoGame/server/platformer/platformer.go:65 | `%d` of a non-negative number is a nonempty string of digits |
| GameServer.DecimalInjective | client/vendor/github.com/grevian/GoGame/server/platformer/platformer.go:65 | distinct numbers print differently |
| GameServer.FormatInt | client/vendor/github.com/grevian/GoGame/server/platformer/platformer.go:65 | `%d` of any int32: digits only, with a leading dash for a negative number |
| GameServer.PlayerKeyShape | client/vendor/github.com/grevian/GoGame/server/platformer/platformer.go:64-65 | the key is the user claim, a dash, and then only digits for a non-negative id |
| GameServer.PlayerKeyInjective | client/vendor/github.com/grevian/GoGame/server/platformer/platformer.go:64-65 | the key `user-id` determines both the user and the (non-negative) id |
| GameServer.Introduce | client/vendor/github.com/grevian/GoGame/server/platformer/platformer.go:83-121 | four sends when the ids differ and none otherwise, each addressed to the player or to the newcomer |
| GameServer.Introductions | client/vendor/github.com/grevian/GoGame/server/platformer/platformer.go:81-122 | at most four sends per player iterated, each addressed to an iterated player or the newcomer |
| GameServer.PeerPairs | client/vendor/github.com/grevian/GoGame/server/platformer/platformer.go:103-120 | at most two updates per player, none of them about the newcomer itself |
| GameServer.IntroductionsAddressed | client/vendor/github.com/grevian/GoGame/server/platformer/platformer.go:81-122 | with every iterated key and the newcomer registered, every introduction send goes to a registered player |
| GameServer.IntroduceInbox | client/vendor/github.com/grevian/GoGame/server/platformer/platformer.go:83-121 | one iteration sends JOINED and position of the newcomer to the player, then the player's to the newcomer; nothing when the ids match |
| GameServer.IntroductionReachesPeer | client/vendor/github.com/grevian/GoGame/server/platformer/platformer.go:81-102 | each other registered player receives exactly JOINED(newId) then Position(newId, newcomer's position) |
| GameServer.IntroductionReachesNewcomer | client/vendor/github.com/grevian/GoGame/server/platformer/platformer.go:103-122 | the newcomer receives, in iteration order, JOINED and Position for every other player and nothing about itself |
| GameServer.FanoutOneInbox | client/vendor/github.com/grevian/GoGame/server/platformer/platformer.go:136-140 | one update reaches each registered player whose id differs from the origin's once, and no other stream |
| GameServer.FanoutReaches | client/vendor/github.com/grevian/GoGame/server/platformer/platformer.go:133-141 | a registered player other than the origin receives all of a tick's updates, in order |
| GameServer.FanoutSkips | client/vendor/github.com/grevian/GoGame/server/platformer/platformer.go:133-141 | the origin, and any unregistered key, receives none of them |
| GameServer.FanoutInbox | client/vendor/github.com/grevian/GoGame/server/platformer/platformer.go:133-141 | both of the above as one if-then-else |
| GameServer.FanoutOne | client/vendor/github.com/grevian/GoGame/server/platformer/platformer.go:136-140 | at most one send per player, each carrying the update to an iterated player whose id differs from the origin's |
| GameServer.Fanout | client/vendor/github.com/grevian/GoGame/server/platformer/platformer.go:133-141 | every send carries one of the tick's updates to an iterated player other than the origin |
| GameServer.FanoutAddressed | client/vendor/github.com/grevian/GoGame/server/platformer/platformer.go:133-141 | the fan-out sends only to registered players |
| GameServer.ConnectAddressed | client/vendor/github.com/grevian/GoGame/server/platformer/platformer.go:72-122 | after sends that all went to registered players, a connection's sends keep it so |
| GameServer.GameServer.Ids | client/vendor/github.com/grevian/GoGame/server/platformer/platformer.go:137 | one id per registered key |
| GameServer.GameServer.Roster | client/vendor/github.com/grevian/GoGame/server/platformer/platformer.go:81-120 | one id and position per registered key |
| GameServer.GameServer.NewGameServer | client/vendor/github.com/grevian/GoGame/server/platformer/platformer.go:26-39 | empty registry, counter 1, nothing sent, the shipped level; the registry invariant holds |
| GameServer.GameServer.Connect | client/vendor/github.com/grevian/GoGame/server/platformer/platformer.go:51-122 | failed validation: error, no id consumed, nothing registered or sent. Success: id = old counter, counter incremented (wrapping), character at (140, 310) under `user-id`, JOINED to it, then the introductions. Below INT32_MAX: the invariant is kept, the key was unused, and nothing had been sent to it before, so its own JOINED is its first message |
| GameServer.GameServer.Admit | client/vendor/github.com/grevian/GoGame/server/platformer/platformer.go:59-69 | takes the counter as the id, increments it, stores a fresh spawn-point character under `user-id`, keeping the invariant |
| GameServer.GameServer.Welcome | client/vendor/github.com/grevian/GoGame/server/platformer/platformer.go:72-122 | appends the newcomer's JOINED and then `Introductions`; every send stays addressed to a registered player |
| GameServer.GameServer.Register | client/vendor/github.com/grevian/GoGame/server/platformer/platformer.go:69 | stores the character; with an id above every registered one the key is new and the invariant holds |
| GameServer.GameServer.IntroduceAll | client/vendor/github.com/grevian/GoGame/server/platformer/platformer.go:81-122 | appends `Introductions` over the iteration order |
| GameServer.GameServer.IntroducePair | client/vendor/github.com/grevian/GoGame/server/platformer/platformer.go:83-121 | appends `Introduce` for one player |
| GameServer.GameServer.TickBroadcast | client/vendor/github.com/grevian/GoGame/server/platformer/platformer.go:128-141 | the origin's fields become `Physics` of the old state; its emission, stamped with its id, is fanned out to every other registered player; the invariant (every send addressed to a registered player) is kept |
| GameServer.GameServer.Broadcast | client/vendor/github.com/grevian/GoGame/server/platformer/platformer.go:133-141 | appends `Fanout` of the updates |
| GameServer.GameServer.SendToOthers | client/vendor/github.com/grevian/GoGame/server/platformer/platformer.go:136-140 | appends `FanoutOne` of one update |
| LegacyServer.CopyToAll | server/platformer/platformer.go:76-78 | one delivery per iteration key, in order, each carrying the update |
| LegacyServer.BroadcastAll | server/platformer/platformer.go:73-79 | exactly one send per update and iterated player, each carrying one of the tick's updates to an iterated player |
| LegacyServer.CopyToAllInbox | server/platformer/platformer.go:76-78 | each registered player, the origin included, receives the update once |
| LegacyServer.BroadcastReaches | server/platformer/platformer.go:73-79 | every registered player, the origin included, receives all of a tick's updates in order |
| LegacyServer.BroadcastSkips | server/platformer/platformer.go:73-79 | unregistered keys receive nothing |
| LegacyServer.BroadcastAllInbox | server/platformer/platformer.go:73-79 | both of the above as one if-then-else |
| LegacyServer.GameServer.NewGameServer | server/platformer/platformer.go:25-37 | empty registry, nothing sent, the shipped level |
| LegacyServer.GameServer.Connect | server/platformer/platformer.go:49-63 | failed validation: error, nothing registered. Success: a fresh character with id 0 at (140, 310) under the bare user name, replacing any earlier entry of that name |
| LegacyServer.GameServer.TickBroadcast | server/platformer/platformer.go:68-79 | the origin's fields become `Physics` of the old state; its emission, stamped 0, is sent to every registered player |
| LegacyServer.GameServer.Broadcast | server/platformer/platformer.go:73-79 | appends `BroadcastAll` of the updates |
| LegacyServer.GameServer.SendToAll | server/platformer/platformer.go:76-78 | appends `CopyToAll` of one update |
| Handshake.ReplayPeerPairs | client/network.go:165-188 | a named client hearing the introduction pairs ends exactly with the learnt roster |
| Handshake.LearnOnlyIntroduced | client/network.go:165-188 | the learnt roster holds only introduced players other than the newcomer |
| Handshake.LearnHoldsEach | client/network.go:165-188 | with distinct ids, it holds every other introduced player at its sent position |
| Handshake.NewcomerLearnsRoster | client/network.go:165-173 | a fresh client receiving its JOINED and the introduction pairs adopts its id and learns the roster, without a nil dereference |
| Handshake.PeerLearnsNewcomer | client/network.go:165-188 | a joined client other than the newcomer adds it at its position |
| Handshake.ConnectInboxOfNewcomer | client/vendor/github.com/grevian/GoGame/server/platformer/platformer.go:72-122 | after `Connect` the newcomer's stream has been sent its JOINED and then the introduction pairs |
| Handshake.NewcomerHandshake | client/vendor/github.com/grevian/GoGame/server/platformer/platformer.go:72-122 | a stream sent nothing before the connection, as `Connect` guarantees, brings a fresh client to its own id and the full roster without a nil dereference |
| Handshake.ConnectInboxOfPeer | client/vendor/github.com/grevian/GoGame/server/platformer/platformer.go:81-102 | after `Connect` every other player's stream has been sent the newcomer's JOINED and position |
| Handshake.ClientFollowsTick | client/network.go:177-189 | a client that knows the mover sets the mover's coordinates when it moved and is otherwise unchanged |
| Handshake.UnknownMoverCrashesClient | client/network.go:182-187 | a client that does not know the mover dereferences nil on its first move |
| Handshake.LegacyMoveCrashesFreshClient | server/platformer/platformer.go:59-79 | the older server sends no JOINED and stamps 0, so a fresh client dereferences nil on any character's first move |

## Left out

- Token validation: the outcome of `validateTokenFromContext`, and the `user` claim itself, are inputs to `Connect`. JWT parsing and the key loading in `NewGameServer` are not part of this model.
- The type assertion `claims["user"].(string)` panics when the claim is missing or not a string. The model assumes a string claim.
- Concurrency: the receive goroutines in `Start`, `updateLock`, and the unsynchronised sharing of `g.players`. Every operation runs atomically here.
- The 16 ms tick timer and the endless outer loop. Only one tick iteration is modelled (`TickBroadcast`).
- The unused `tickDuration` parameter of `Tick` and `updatePhysics`.
- Transport: `Send` and `Recv`, their errors, the logging on send failure, and `CloseSend` in the client's `Update`. A send is an append to the outbox, and received updates are a parameter.
- float64 is modelled as real, with no IEEE rounding. The float32 narrowing of every coordinate in a `Position` message is not modelled.
- Rendering: every `Draw`, the ebiten image and option fields of characters and players, and `GetPlayers`.
- `UserInformation` and `Serve` are not part of this model (unimplemented stub and gRPC wiring).
- The vendored server's own character file is not part of this model. Its characters are modelled with `ServerCharacter.Character`, whose `userId` stands for `user.id`. The older server's `User` has no id, and it is modelled as 0, the value it stamps.
- LegacyServer.GameServer.Connect: a second connection under the same user name replaces the map entry but not the first connection. The first stream still exists, and its own tick loop keeps broadcasting. Sends are addressed by name, so for such a name `Inbox` joins what the two streams received. The model does not say which stream received which update.
- ServerCharacter.AdoptReport: the skew guard is modelled on reals. A report with NaN coordinates passes it, because every comparison with NaN is false, and its velocities are adopted unchecked. The model does not capture that.
- ServerCharacter.PhysicsKeepsInWorld: holds for real-valued forces only. A NaN or infinite velocity adopted from a report would make the position NaN on the next tick. The character would then leave the world and emit an update on every tick, which `ServerCharacter.RestingIsFixedPoint` also excludes.
- GameServer.GameServer.Connect: the registry invariant is proved only while the counter is below INT32_MAX. At the top the counter wraps to INT32_MIN, the source does not guard against that, and ids would then repeat.
