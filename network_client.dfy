/**
 * The client's view of the game: its own user identifier (-1 until the server
 * assigns one), a roster of the other players keyed by identifier, and the
 * updates it sends.  Stream sends are appended to an outbox.
 */
module Network {
  import opened Protocol
  import ClientCharacter

  /** The user identifier of a client the server has not yet assigned one. */
  const UNJOINED: int32 := -1

  /** Another player as the client draws it (image fields dropped). */
  datatype Player = Player(name: string, x: real, y: real)

  function NewPlayer(): (p: Player)
    ensures p.name == "" && p.x == 0.0 && p.y == 0.0
  {
    Player("", 0.0, 0.0)
  }

  /** The state `processCommand` and `processPositionUpdate` act on. */
  datatype ClientState = ClientState(userIdentifier: int32, players: map<int32, Player>)

  /** What handling a server update comes to: a new view, or the nil dereference of an unknown player. */
  datatype Outcome = Applied(state: ClientState) | NilDereference

  /** A command from the server about user `id`. */
  function OnCommand(v: ClientState, id: int32, command: CommandKind): (r: ClientState)
    ensures r.userIdentifier == if command == Joined && v.userIdentifier == UNJOINED then id else v.userIdentifier
    // JOINED: the first one names this client and leaves the roster alone; later ones add `id`.
    ensures command == Joined && v.userIdentifier == UNJOINED ==> r.players == v.players
    ensures command == Joined && v.userIdentifier != UNJOINED ==>
              r.players.Keys == v.players.Keys + {id} && r.players[id] == NewPlayer() &&
              forall k :: k in v.players && k != id ==> r.players[k] == v.players[k]
    // QUIT: about this client, nothing; about another player, exactly that entry goes.
    ensures command == Quit && id == v.userIdentifier ==> r == v
    ensures command == Quit && id != v.userIdentifier ==>
              r.players.Keys == v.players.Keys - {id} &&
              forall k :: k in r.players ==> r.players[k] == v.players[k]
    ensures command == Jump || command == Other ==> r == v
  {
    match command
    case Quit => if id == v.userIdentifier then v else v.(players := v.players - {id})
    case Joined =>
      if v.userIdentifier == UNJOINED then v.(userIdentifier := id)
      else v.(players := v.players[id := NewPlayer()])
    case _ => v
  }

  /** A position from the server about user `id`. */
  function OnPosition(v: ClientState, id: int32, p: Position): (r: Outcome)
    ensures id == v.userIdentifier ==> r == Applied(v)
    ensures r.NilDereference? <==> id != v.userIdentifier && id !in v.players
    ensures r.Applied? ==> r.state.userIdentifier == v.userIdentifier && r.state.players.Keys == v.players.Keys
    ensures r.Applied? && id != v.userIdentifier ==>
              r.state.players[id] == v.players[id].(x := p.x, y := p.y) &&
              forall k :: k in v.players && k != id ==> r.state.players[k] == v.players[k]
  {
    if id == v.userIdentifier then Applied(v)
    else if id !in v.players then NilDereference
    else Applied(v.(players := v.players[id := v.players[id].(x := p.x, y := p.y)]))
  }

  /** The dispatch on each update received from the server. */
  function OnUpdate(v: ClientState, u: ServerUpdate): (r: Outcome)
    ensures r.NilDereference? <==>
              u.payload.PositionPayload? && u.userIdentifier != v.userIdentifier && u.userIdentifier !in v.players
    ensures r.Applied? && v.userIdentifier != UNJOINED ==> r.state.userIdentifier == v.userIdentifier
  {
    match u.payload
    case CommandPayload(command) => Applied(OnCommand(v, u.userIdentifier, command))
    case PositionPayload(p) => OnPosition(v, u.userIdentifier, p)
    case NoPayload => Applied(v)
  }

  /** Receiving a sequence of updates in order; a nil dereference ends the client. */
  function Replay(v: ClientState, updates: seq<ServerUpdate>): (r: Outcome)
    ensures updates == [] ==> r == Applied(v)
    ensures r.NilDereference? ==> exists i :: 0 <= i < |updates| && updates[i].payload.PositionPayload?
    decreases |updates|
  {
    if updates == [] then Applied(v)
    else
      match OnUpdate(v, updates[0])
      case Applied(w) => Replay(w, updates[1..])
      case NilDereference => NilDereference
  }

  lemma {:induction false} ReplayAppend(v: ClientState, a: seq<ServerUpdate>, b: seq<ServerUpdate>)
    ensures Replay(v, a + b) ==
            match Replay(v, a)
            case Applied(w) => Replay(w, b)
            case NilDereference => NilDereference
    decreases |a|
  {
    if a != [] {
      assert (a + b)[0] == a[0];
      assert (a + b)[1..] == a[1..] + b;
      match OnUpdate(v, a[0])
      case Applied(w) =>
        assert Replay(v, a + b) == Replay(w, a[1..] + b);
        assert Replay(v, a) == Replay(w, a[1..]);
        ReplayAppend(w, a[1..], b);
      case NilDereference =>
    } else {
      assert a + b == b;
    }
  }

  /** Once the server has named this client, no sequence of updates renames it. */
  lemma {:induction false} IdentityIsStable(v: ClientState, updates: seq<ServerUpdate>)
    requires v.userIdentifier != UNJOINED
    ensures Replay(v, updates).Applied? ==> Replay(v, updates).state.userIdentifier == v.userIdentifier
    decreases |updates|
  {
    if updates != [] {
      match OnUpdate(v, updates[0])
      case Applied(w) =>
        assert w.userIdentifier == v.userIdentifier;
        IdentityIsStable(w, updates[1..]);
      case NilDereference =>
    }
  }

  /** The game client's networking state (credentials and streams elided). */
  class NetworkClient {
    var userIdentifier: int32
    var players: map<int32, Player>
    var sent: seq<Payload>
    var networkClock: int

    function State(): ClientState
      reads this
    {
      ClientState(userIdentifier, players)
    }

    /** The state `NewNetworkClient` leaves once its connections are open. */
    constructor NewNetworkClient()
      ensures userIdentifier == UNJOINED && players == map[]
      ensures sent == [] && networkClock == 0
    {
      userIdentifier := UNJOINED;
      players := map[];
      sent := [];
      networkClock := 0;
    }

    method AddPlayer(id: int32)
      modifies this
      ensures players == old(players)[id := NewPlayer()]
      ensures userIdentifier == old(userIdentifier) && sent == old(sent) && networkClock == old(networkClock)
    {
      players := players[id := NewPlayer()];
    }

    method RemovePlayer(id: int32)
      modifies this
      ensures players == old(players) - {id}
      ensures userIdentifier == old(userIdentifier) && sent == old(sent) && networkClock == old(networkClock)
    {
      players := players - {id};
    }

    method ProcessCommand(id: int32, command: CommandKind)
      modifies this
      ensures State() == OnCommand(old(State()), id, command)
      ensures sent == old(sent) && networkClock == old(networkClock)
    {
      match command
      case Quit =>
        if id != userIdentifier {
          RemovePlayer(id);
        }
      case Joined =>
        if userIdentifier == UNJOINED {
          userIdentifier := id;
        } else {
          AddPlayer(id);
        }
      case _ =>
    }

    /** Returns true where the source dereferences the nil player of an unknown id. */
    method ProcessPositionUpdate(id: int32, p: Position) returns (nilDereference: bool)
      modifies this
      ensures OnPosition(old(State()), id, p) == if nilDereference then NilDereference else Applied(State())
      ensures nilDereference ==> State() == old(State())
      ensures sent == old(sent) && networkClock == old(networkClock)
    {
      nilDereference := false;
      if userIdentifier != id {
        if id !in players {
          nilDereference := true;
          return;
        }
        var player := players[id];
        players := players[id := player.(x := p.x, y := p.y)];
      }
    }

    /** The dispatch in the receive loop. */
    method HandleServerUpdate(u: ServerUpdate) returns (nilDereference: bool)
      modifies this
      ensures OnUpdate(old(State()), u) == if nilDereference then NilDereference else Applied(State())
      ensures sent == old(sent) && networkClock == old(networkClock)
    {
      nilDereference := false;
      match u.payload
      case CommandPayload(command) => ProcessCommand(u.userIdentifier, command);
      case PositionPayload(p) => nilDereference := ProcessPositionUpdate(u.userIdentifier, p);
      case NoPayload =>
    }

    /** Leaving and rejoining: QUIT, then JOINED. */
    method Reset()
      modifies this
      ensures sent == old(sent) + [CommandPayload(Quit), CommandPayload(Joined)]
      ensures State() == old(State()) && networkClock == old(networkClock)
    {
      sent := sent + [CommandPayload(Quit)];
      sent := sent + [CommandPayload(Joined)];
    }

    /** Reports the character's position and forces to the server. */
    method Update(character: ClientCharacter.Character)
      modifies this
      ensures sent == old(sent) + [PositionPayload(Position(character.x, character.y, character.forceX, character.forceY))]
      ensures State() == old(State()) && networkClock == old(networkClock)
    {
      var position := Position(character.x, character.y, character.forceX, character.forceY);
      sent := sent + [PositionPayload(position)];
    }
  }
}
