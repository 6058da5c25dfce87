/**
 * The game server with an identifier counter: each connection is registered
 * under a fresh id, is introduced to every other registered player (and
 * they to it), and every update of its ticks is fanned out to everyone else.
 * Sends to a player's stream are appended to one outbox, tagged with the
 * player's registry key.
 */
module GameServer {
  import opened Wrappers
  import opened Protocol
  import opened Levels
  import opened ServerCharacter

  // ---------------------------------------------------------- registry keys

  function DigitChar(d: nat): (c: char)
    requires d < 10
    ensures '0' <= c <= '9'
  {
    ('0' as int + d) as char
  }

  /** `%d` of a non-negative number. */
  function Decimal(n: nat): (s: string)
    ensures |s| >= 1
    ensures n >= 10 ==> |s| >= 2
    ensures forall i :: 0 <= i < |s| ==> '0' <= s[i] <= '9'
    decreases n
  {
    if n < 10 then [DigitChar(n)] else Decimal(n / 10) + [DigitChar(n % 10)]
  }

  /** `%d` of any number. */
  function FormatInt(n: int): (s: string)
    ensures n >= 0 ==> |s| >= 1 && forall i :: 0 <= i < |s| ==> '0' <= s[i] <= '9'
    ensures n < 0 ==> |s| >= 2 && s[0] == '-' && forall i :: 1 <= i < |s| ==> '0' <= s[i] <= '9'
  {
    if n < 0 then "-" + Decimal(-n) else Decimal(n)
  }

  /** The registry key `fmt.Sprintf("%s-%d", user, id)`. */
  function PlayerKey(user: string, id: int32): string
  {
    user + "-" + FormatInt(id as int)
  }

  /** The key is the user claim, a dash, and the id in decimal. */
  lemma PlayerKeyShape(user: string, id: int32)
    ensures var key := PlayerKey(user, id);
      && |key| >= |user| + 2 && key[..|user|] == user && key[|user|] == '-'
      && (id >= 0 ==> forall i :: |user| < i < |key| ==> '0' <= key[i] <= '9')
  {
  }

  lemma {:induction false} DecimalInjective(a: nat, b: nat)
    requires Decimal(a) == Decimal(b)
    ensures a == b
    decreases a
  {
    var s := Decimal(a);
    if a >= 10 && b >= 10 {
      assert Decimal(a / 10) == s[..|s| - 1] == Decimal(b / 10);
      assert DigitChar(a % 10) == s[|s| - 1] == DigitChar(b % 10);
      DecimalInjective(a / 10, b / 10);
    }
  }

  /** In `u-d`, with no dash among the digits, the dash at `|u|` is the last one. */
  lemma LastDash(u: string, d: string)
    requires forall i :: 0 <= i < |d| ==> '0' <= d[i] <= '9'
    ensures (u + "-" + d)[|u|] == '-'
    ensures forall j :: |u| < j < |u + "-" + d| ==> (u + "-" + d)[j] != '-'
  {
    var k := u + "-" + d;
    forall j | |u| < j < |k|
      ensures k[j] != '-'
    {
      assert k[j] == d[j - |u| - 1];
    }
  }

  /** Distinct non-negative identifiers give distinct keys, whatever the user names. */
  lemma PlayerKeyInjective(u1: string, i1: int32, u2: string, i2: int32)
    requires i1 >= 0 && i2 >= 0
    requires PlayerKey(u1, i1) == PlayerKey(u2, i2)
    ensures u1 == u2 && i1 == i2
  {
    var k := PlayerKey(u1, i1);
    var d1, d2 := Decimal(i1 as nat), Decimal(i2 as nat);
    assert k == u1 + "-" + d1 == u2 + "-" + d2;
    LastDash(u1, d1);
    LastDash(u2, d2);
    assert |u1| == |u2|;
    assert u1 == k[..|u1|] == u2;
    assert d1 == k[|u1| + 1..] == d2;
    DecimalInjective(i1 as nat, i2 as nat);
  }

  // ------------------------------------------------------------ introduction

  /** What the registry knows of a player when introducing it: its id and position. */
  datatype Peer = Peer(id: int32, x: real, y: real)

  /** The four sends of one iteration of the introduction loop, for the player under `key`. */
  function Introduce(key: string, p: Peer, newKey: string, n: Peer): (r: seq<Delivery>)
    ensures |r| == if p.id != n.id then 4 else 0
    ensures forall i :: 0 <= i < |r| ==> r[i].to == key || r[i].to == newKey
  {
    if p.id != n.id then
      [Delivery(key, JoinedMessage(n.id)), Delivery(key, PositionMessage(n.id, n.x, n.y)),
       Delivery(newKey, JoinedMessage(p.id)), Delivery(newKey, PositionMessage(p.id, p.x, p.y))]
    else []
  }

  /** Of the four sends, the first two reach the registered player and the last two the newcomer. */
  lemma IntroduceInbox(key: string, p: Peer, newKey: string, n: Peer, who: string)
    ensures Inbox(Introduce(key, p, newKey, n), who) ==
            (if who == key && p.id != n.id then [JoinedMessage(n.id), PositionMessage(n.id, n.x, n.y)] else []) +
            (if who == newKey && p.id != n.id then [JoinedMessage(p.id), PositionMessage(p.id, p.x, p.y)] else [])
  {
    if p.id != n.id {
      var toPeer := [Delivery(key, JoinedMessage(n.id)), Delivery(key, PositionMessage(n.id, n.x, n.y))];
      var toNew := [Delivery(newKey, JoinedMessage(p.id)), Delivery(newKey, PositionMessage(p.id, p.x, p.y))];
      assert Introduce(key, p, newKey, n) == toPeer + toNew;
      InboxAppend(toPeer, toNew, who);
      assert toPeer[..1] == [toPeer[0]] && toNew[..1] == [toNew[0]];
    }
  }

  /** The introduction loop over the registered players in `order`. */
  function Introductions(order: seq<string>, roster: map<string, Peer>, newKey: string, n: Peer): (r: seq<Delivery>)
    requires forall i :: 0 <= i < |order| ==> order[i] in roster
    ensures |r| <= 4 * |order|
    ensures forall i :: 0 <= i < |r| ==> r[i].to == newKey || r[i].to in order
    decreases |order|
  {
    if order == [] then []
    else
      var last := order[|order| - 1];
      Introductions(order[..|order| - 1], roster, newKey, n) + Introduce(last, roster[last], newKey, n)
  }

  lemma IntroductionsStep(order: seq<string>, roster: map<string, Peer>, newKey: string, n: Peer, i: nat)
    requires i < |order| && forall j :: 0 <= j < |order| ==> order[j] in roster
    ensures Introductions(order[..i + 1], roster, newKey, n) ==
            Introductions(order[..i], roster, newKey, n) + Introduce(order[i], roster[order[i]], newKey, n)
  {
    assert order[..i + 1][..i] == order[..i];
  }

  /** The JOINED and position pairs the newcomer is sent about the players in `order`. */
  function PeerPairs(order: seq<string>, roster: map<string, Peer>, newId: int32): (r: seq<ServerUpdate>)
    requires forall i :: 0 <= i < |order| ==> order[i] in roster
    ensures |r| <= 2 * |order|
    ensures forall i :: 0 <= i < |r| ==> r[i].userIdentifier != newId
    decreases |order|
  {
    if order == [] then []
    else
      var p := roster[order[|order| - 1]];
      PeerPairs(order[..|order| - 1], roster, newId) +
      (if p.id != newId then [JoinedMessage(p.id), PositionMessage(p.id, p.x, p.y)] else [])
  }

  /** A registered player other than the newcomer hears of it exactly once: JOINED, then its position. */
  lemma {:induction false} IntroductionReachesPeer(order: seq<string>, roster: map<string, Peer>,
                                                   newKey: string, n: Peer, key: string)
    requires forall i :: 0 <= i < |order| ==> order[i] in roster
    requires forall i, j :: 0 <= i < j < |order| ==> order[i] != order[j]
    requires key != newKey && key in roster && roster[key].id != n.id
    ensures Inbox(Introductions(order, roster, newKey, n), key) ==
            if key in order then [JoinedMessage(n.id), PositionMessage(n.id, n.x, n.y)] else []
    decreases |order|
  {
    if order != [] {
      var prefix, last := order[..|order| - 1], order[|order| - 1];
      DistinctSplitLast(order, key);
      IntroductionReachesPeer(prefix, roster, newKey, n, key);
      var intro := Introduce(last, roster[last], newKey, n);
      InboxAppend(Introductions(prefix, roster, newKey, n), intro, key);
      IntroduceInbox(last, roster[last], newKey, n, key);
    }
  }

  /** The newcomer hears, in `order`, a JOINED and position pair about every other player, and nothing about itself. */
  lemma {:induction false} IntroductionReachesNewcomer(order: seq<string>, roster: map<string, Peer>,
                                                       newKey: string, n: Peer)
    requires forall i :: 0 <= i < |order| ==> order[i] in roster
    requires newKey in roster && roster[newKey].id == n.id
    ensures Inbox(Introductions(order, roster, newKey, n), newKey) == PeerPairs(order, roster, n.id)
    decreases |order|
  {
    if order != [] {
      var prefix, last := order[..|order| - 1], order[|order| - 1];
      IntroductionReachesNewcomer(prefix, roster, newKey, n);
      var intro := Introduce(last, roster[last], newKey, n);
      InboxAppend(Introductions(prefix, roster, newKey, n), intro, newKey);
      if roster[last].id != n.id {
        assert last != newKey;
        IntroduceInbox(last, roster[last], newKey, n, newKey);
      }
    }
  }

  // ---------------------------------------------------------------- fan-out

  /** One update sent to every player in `order` whose id differs from the origin's. */
  function FanoutOne(u: ServerUpdate, order: seq<string>, ids: map<string, int32>, origin: int32): (r: seq<Delivery>)
    requires forall i :: 0 <= i < |order| ==> order[i] in ids
    ensures |r| <= |order|
    ensures forall i :: 0 <= i < |r| ==> r[i].update == u && r[i].to in order && ids[r[i].to] != origin
    decreases |order|
  {
    if order == [] then []
    else
      var last := order[|order| - 1];
      FanoutOne(u, order[..|order| - 1], ids, origin) + (if ids[last] != origin then [Delivery(last, u)] else [])
  }

  lemma FanoutOneStep(u: ServerUpdate, order: seq<string>, ids: map<string, int32>, origin: int32, j: nat)
    requires j < |order| && forall i :: 0 <= i < |order| ==> order[i] in ids
    ensures FanoutOne(u, order[..j + 1], ids, origin) ==
            FanoutOne(u, order[..j], ids, origin) + (if ids[order[j]] != origin then [Delivery(order[j], u)] else [])
  {
    assert order[..j + 1][..j] == order[..j];
  }

  /** Every update of a tick, in order, fanned out. */
  function Fanout(updates: seq<ServerUpdate>, order: seq<string>, ids: map<string, int32>, origin: int32): (r: seq<Delivery>)
    requires forall i :: 0 <= i < |order| ==> order[i] in ids
    ensures forall i :: 0 <= i < |r| ==> r[i].update in updates && r[i].to in order && ids[r[i].to] != origin
    decreases |updates|
  {
    if updates == [] then []
    else Fanout(updates[..|updates| - 1], order, ids, origin) + FanoutOne(updates[|updates| - 1], order, ids, origin)
  }

  lemma FanoutStep(updates: seq<ServerUpdate>, order: seq<string>, ids: map<string, int32>, origin: int32, i: nat)
    requires i < |updates| && forall j :: 0 <= j < |order| ==> order[j] in ids
    ensures Fanout(updates[..i + 1], order, ids, origin) ==
            Fanout(updates[..i], order, ids, origin) + FanoutOne(updates[i], order, ids, origin)
  {
    assert updates[..i + 1][..i] == updates[..i];
  }

  lemma {:induction false} FanoutOneInbox(u: ServerUpdate, order: seq<string>, ids: map<string, int32>,
                                          origin: int32, key: string)
    requires forall i :: 0 <= i < |order| ==> order[i] in ids
    requires forall i, j :: 0 <= i < j < |order| ==> order[i] != order[j]
    ensures Inbox(FanoutOne(u, order, ids, origin), key) ==
            if key in order && ids[key] != origin then [u] else []
    decreases |order|
  {
    if order != [] {
      var prefix, last := order[..|order| - 1], order[|order| - 1];
      DistinctSplitLast(order, key);
      var before := FanoutOne(u, prefix, ids, origin);
      var tail := if ids[last] != origin then [Delivery(last, u)] else [];
      assert FanoutOne(u, order, ids, origin) == before + tail;
      FanoutOneInbox(u, prefix, ids, origin, key);
      InboxAppend(before, tail, key);
    }
  }

  /** A registered player other than the origin receives every update of the tick once, in order. */
  lemma {:induction false} FanoutReaches(updates: seq<ServerUpdate>, order: seq<string>, ids: map<string, int32>,
                                         origin: int32, key: string)
    requires forall i :: 0 <= i < |order| ==> order[i] in ids
    requires forall i, j :: 0 <= i < j < |order| ==> order[i] != order[j]
    requires key in order && ids[key] != origin
    ensures Inbox(Fanout(updates, order, ids, origin), key) == updates
    decreases |updates|
  {
    if updates != [] {
      var prefix, last := updates[..|updates| - 1], updates[|updates| - 1];
      var before, now := Fanout(prefix, order, ids, origin), FanoutOne(last, order, ids, origin);
      assert Fanout(updates, order, ids, origin) == before + now;
      FanoutReaches(prefix, order, ids, origin, key);
      FanoutOneInbox(last, order, ids, origin, key);
      InboxSnoc(before, now, key, prefix, last);
      SplitLast(updates);
    }
  }

  lemma {:induction false} FanoutSkips(updates: seq<ServerUpdate>, order: seq<string>, ids: map<string, int32>,
                                       origin: int32, key: string)
    requires forall i :: 0 <= i < |order| ==> order[i] in ids
    requires forall i, j :: 0 <= i < j < |order| ==> order[i] != order[j]
    requires !(key in order && ids[key] != origin)
    ensures Inbox(Fanout(updates, order, ids, origin), key) == []
    decreases |updates|
  {
    if updates != [] {
      var prefix, last := updates[..|updates| - 1], updates[|updates| - 1];
      FanoutSkips(prefix, order, ids, origin, key);
      FanoutOneInbox(last, order, ids, origin, key);
      InboxAppend(Fanout(prefix, order, ids, origin), FanoutOne(last, order, ids, origin), key);
    }
  }

  /** Each registered player other than the origin receives every update of the tick once, in order; the origin receives none. */
  lemma FanoutInbox(updates: seq<ServerUpdate>, order: seq<string>, ids: map<string, int32>,
                    origin: int32, key: string)
    requires forall i :: 0 <= i < |order| ==> order[i] in ids
    requires forall i, j :: 0 <= i < j < |order| ==> order[i] != order[j]
    ensures Inbox(Fanout(updates, order, ids, origin), key) ==
            if key in order && ids[key] != origin then updates else []
  {
    if key in order && ids[key] != origin {
      FanoutReaches(updates, order, ids, origin, key);
    } else {
      FanoutSkips(updates, order, ids, origin, key);
    }
  }

  /** The introduction loop sends only to the players it iterates over and to the newcomer. */
  lemma IntroductionsAddressed(order: seq<string>, roster: map<string, Peer>, newKey: string, n: Peer, keys: set<string>)
    requires forall i :: 0 <= i < |order| ==> order[i] in roster && order[i] in keys
    requires newKey in keys
    ensures AddressedTo(Introductions(order, roster, newKey, n), keys)
  {
  }

  /** The fan-out sends only to the players it iterates over. */
  lemma FanoutAddressed(updates: seq<ServerUpdate>, order: seq<string>, ids: map<string, int32>, origin: int32,
                        keys: set<string>)
    requires forall i :: 0 <= i < |order| ==> order[i] in ids && order[i] in keys
    ensures AddressedTo(Fanout(updates, order, ids, origin), keys)
  {
  }

  /** What `Connect` sends after `before` is addressed to registered players only. */
  lemma ConnectAddressed(before: seq<Delivery>, order: seq<string>, roster: map<string, Peer>, newKey: string, n: Peer,
                         keys: set<string>)
    requires AddressedTo(before, keys)
    requires forall i :: 0 <= i < |order| ==> order[i] in roster && order[i] in keys
    requires newKey in keys
    ensures AddressedTo(before + [Delivery(newKey, JoinedMessage(n.id))] + Introductions(order, roster, newKey, n), keys)
  {
    IntroductionsAddressed(order, roster, newKey, n, keys);
    AddressedAppend(before, [Delivery(newKey, JoinedMessage(n.id))], keys);
    AddressedAppend(before + [Delivery(newKey, JoinedMessage(n.id))], Introductions(order, roster, newKey, n), keys);
  }

  // ------------------------------------------------------------ the server

  class GameServer {
    const level: Level
    var players: map<string, Character>
    var identifiers: int32
    var outbox: seq<Delivery>
    /** The `user` claim each key was formed from. */
    ghost var claims: map<string, string>

    /** Keys are `user-id`, ids are distinct, at least 1 and below `bound`. */
    ghost predicate Registry(bound: int)
      reads this`players, this`claims
    {
      && players.Keys == claims.Keys
      && (forall k :: k in players ==>
            && 1 <= players[k].userId as int < bound
            && players[k].userName == k
            && k == PlayerKey(claims[k], players[k].userId))
      && (forall k, k' :: k in players && k' in players && k != k' ==> players[k].userId != players[k'].userId)
    }

    /** The registry is consistent with the id counter, and every send so far went to a registered player. */
    ghost predicate Valid()
      reads this`identifiers, this`players, this`claims, this`outbox
    {
      1 <= identifiers && Registry(identifiers as int) && AddressedTo(outbox, players.Keys)
    }

    /** The registered players' ids (fixed at creation, so readable without the characters' state). */
    function Ids(): (ids: map<string, int32>)
      reads this`players
      ensures ids.Keys == players.Keys
    {
      map k | k in players :: players[k].userId
    }

    /** The registered players' ids and positions. */
    ghost function Roster(): (r: map<string, Peer>)
      reads this`players, players.Values
      ensures r.Keys == players.Keys
    {
      map k | k in players :: Peer(players[k].userId, players[k].x, players[k].y)
    }

    /** `NewGameServer` once its public key is loaded. */
    constructor NewGameServer()
      ensures players == map[] && identifiers == 1 && outbox == [] && level == NewLevel()
      ensures Valid()
    {
      level := NewLevel();
      players := map[];
      identifiers := 1;
      outbox := [];
      claims := map[];
    }

    /**
     * Registration and introduction of one connection.  `validated` is the
     * outcome of token validation (the `user` claim, or why it failed); `order`
     * is the order in which the registry, new player included, is iterated.
     */
    method Connect(validated: Result<string, TokenError>, order: seq<string>) returns (r: Result<Character, TokenError>)
      requires validated.Success? ==>
                 EnumeratesKeys(order, players.Keys + {PlayerKey(validated.value, identifiers)})
      modifies this
      ensures validated.Failure? ==>
                r == Failure(validated.error) && players == old(players) &&
                identifiers == old(identifiers) && outbox == old(outbox) && claims == old(claims)
      ensures validated.Success? ==> r.Success? && fresh(r.value)
      ensures validated.Success? ==>
                var key := PlayerKey(validated.value, old(identifiers));
                var c := r.value;
                && c.userId == old(identifiers) && c.userName == key
                && c.State() == NewBody(SPAWN_X, SPAWN_Y)
                && identifiers == WrappingIncrement(old(identifiers))
                && players == old(players)[key := c]
                && outbox == old(outbox) + [Delivery(key, JoinedMessage(c.userId))] +
                             Introductions(order, Roster(), key, Peer(c.userId, SPAWN_X, SPAWN_Y))
      ensures validated.Success? && old(Valid()) && old(identifiers) < INT32_MAX ==>
                Valid() && PlayerKey(validated.value, old(identifiers)) !in old(players)
      ensures validated.Success? && old(Valid()) && old(identifiers) < INT32_MAX ==>
                Inbox(old(outbox), PlayerKey(validated.value, old(identifiers))) == []
    {
      if validated.Failure? {
        return Failure(validated.error);
      }
      ghost var keys := players.Keys;
      ghost var wasValid := Valid() && identifiers < INT32_MAX;
      var character := Admit(validated.value);
      if wasValid {
        InboxOutsideAddressees(outbox, keys, character.userName);
      }
      Welcome(character, order);
      r := Success(character);
    }

    /** The sends of a connection: the newcomer's own JOINED, then the introduction loop. */
    method Welcome(character: Character, order: seq<string>)
      requires forall i :: 0 <= i < |order| ==> order[i] in players
      modifies this`outbox
      ensures outbox == old(outbox) + [Delivery(character.userName, JoinedMessage(character.userId))] +
                Introductions(order, Roster(), character.userName, Peer(character.userId, character.x, character.y))
      ensures AddressedTo(old(outbox), players.Keys) && character.userName in players ==> AddressedTo(outbox, players.Keys)
    {
      outbox := outbox + [Delivery(character.userName, JoinedMessage(character.userId))];
      IntroduceAll(character.userName, character, order);
      if AddressedTo(old(outbox), players.Keys) && character.userName in players {
        ConnectAddressed(old(outbox), order, Roster(), character.userName,
                         Peer(character.userId, character.x, character.y), players.Keys);
      }
    }

    /** The next id, the key formed from it, and a character at the spawn point stored under that key. */
    method Admit(user: string) returns (character: Character)
      modifies this`identifiers, this`players, this`claims
      ensures fresh(character)
      ensures character.userId == old(identifiers) && character.userName == PlayerKey(user, old(identifiers))
      ensures character.State() == NewBody(SPAWN_X, SPAWN_Y)
      ensures identifiers == WrappingIncrement(old(identifiers))
      ensures players == old(players)[character.userName := character]
      ensures claims == old(claims)[character.userName := user]
      ensures old(Valid()) && old(identifiers) < INT32_MAX ==> Valid() && character.userName !in old(players)
    {
      var userId := identifiers;
      identifiers := WrappingIncrement(identifiers);

      var username := PlayerKey(user, userId);
      character := new Character.NewNetworkCharacter(SPAWN_X, SPAWN_Y, username, userId);
      Register(user, username, character);
      if old(Valid()) {
        AddressedGrow(outbox, old(players).Keys, players.Keys);
      }
    }

    /** Stores a new character under its key; with an unused id this keeps the registry valid. */
    method Register(user: string, key: string, c: Character)
      requires key == PlayerKey(user, c.userId) && c.userName == key
      modifies this`players, this`claims
      ensures players == old(players)[key := c] && claims == old(claims)[key := user]
      ensures old(Registry(c.userId as int)) && c.userId >= 1 ==> Registry(c.userId as int + 1) && key !in old(players)
    {
      if Registry(c.userId as int) && c.userId >= 1 {
        forall k | k in players
          ensures k != key
        {
          if k == key {
            PlayerKeyInjective(claims[k], players[k].userId, user, c.userId);
          }
        }
      }
      players := players[key := c];
      claims := claims[key := user];
    }

    /** The introduction loop: the newcomer and each other registered player exchange JOINED and position. */
    method IntroduceAll(username: string, character: Character, order: seq<string>)
      requires forall i :: 0 <= i < |order| ==> order[i] in players
      modifies this`outbox
      ensures outbox == old(outbox) +
                Introductions(order, Roster(), username, Peer(character.userId, character.x, character.y))
    {
      ghost var newcomer := Peer(character.userId, character.x, character.y);
      ghost var log := outbox;
      var i := 0;
      while i < |order|
        invariant 0 <= i <= |order|
        invariant outbox == log + Introductions(order[..i], Roster(), username, newcomer)
      {
        var player := players[order[i]];
        assert Roster()[order[i]] == Peer(player.userId, player.x, player.y);
        ghost var done := Introductions(order[..i], Roster(), username, newcomer);
        IntroducePair(order[i], player, username, character);
        IntroductionsStep(order, Roster(), username, newcomer, i);
        AppendAssoc(log, done, Introduce(order[i], Roster()[order[i]], username, newcomer));
        i := i + 1;
      }
      assert order[..i] == order;
    }

    /** One iteration of the introduction loop: `player`, under `key`, and the newcomer `character` hear of each other. */
    method IntroducePair(key: string, player: Character, username: string, character: Character)
      modifies this`outbox
      ensures outbox == old(outbox) + Introduce(key, Peer(player.userId, player.x, player.y),
                                                username, Peer(character.userId, character.x, character.y))
    {
      if player.userId != character.userId {
        outbox := outbox + [Delivery(key, JoinedMessage(character.userId))];
        outbox := outbox + [Delivery(key, PositionMessage(character.userId, character.x, character.y))];
        outbox := outbox + [Delivery(username, JoinedMessage(player.userId))];
        outbox := outbox + [Delivery(username, PositionMessage(player.userId, player.x, player.y))];
      }
    }

    /**
     * One iteration of a connection's tick loop: the character's tick, then
     * each update stamped with its id and sent to every other registered player.
     */
    method TickBroadcast(origin: Character, order: seq<string>)
      requires EnumeratesKeys(order, players.Keys)
      modifies this`outbox, origin
      ensures origin.State() == Physics(old(origin.State()), level)
      ensures outbox == old(outbox) +
                Fanout(Stamp(Emission(old(origin.State()), origin.State()), origin.userId), order, Ids(), origin.userId)
      ensures old(Valid()) ==> Valid()
    {
      var updates := origin.Tick(level);
      updates := Stamp(updates, origin.userId);
      ghost var before := outbox;
      Broadcast(updates, order, origin.userId);
      if old(Valid()) {
        FanoutAddressed(updates, order, Ids(), origin.userId, players.Keys);
        AddressedAppend(before, Fanout(updates, order, Ids(), origin.userId), players.Keys);
      }
    }

    /** Sends each update, in order, to every registered player whose id is not `originId`. */
    method Broadcast(updates: seq<ServerUpdate>, order: seq<string>, originId: int32)
      requires forall i :: 0 <= i < |order| ==> order[i] in players
      modifies this`outbox
      ensures outbox == old(outbox) + Fanout(updates, order, Ids(), originId)
    {
      ghost var log := outbox;
      var i := 0;
      while i < |updates|
        invariant 0 <= i <= |updates|
        invariant outbox == log + Fanout(updates[..i], order, Ids(), originId)
      {
        ghost var done := Fanout(updates[..i], order, Ids(), originId);
        SendToOthers(updates[i], order, originId);
        FanoutStep(updates, order, Ids(), originId, i);
        AppendAssoc(log, done, FanoutOne(updates[i], order, Ids(), originId));
        i := i + 1;
      }
      assert updates[..i] == updates;
    }

    /** The inner loop of the fan-out: one update to every registered player whose id is not `originId`. */
    method SendToOthers(u: ServerUpdate, order: seq<string>, originId: int32)
      requires forall i :: 0 <= i < |order| ==> order[i] in players
      modifies this`outbox
      ensures outbox == old(outbox) + FanoutOne(u, order, Ids(), originId)
    {
      ghost var log := outbox;
      var j := 0;
      while j < |order|
        invariant 0 <= j <= |order|
        invariant outbox == log + FanoutOne(u, order[..j], Ids(), originId)
      {
        var player := players[order[j]];
        assert Ids()[order[j]] == player.userId;
        ghost var done := FanoutOne(u, order[..j], Ids(), originId);
        var sent := if player.userId != originId then [Delivery(order[j], u)] else [];
        outbox := outbox + sent;
        FanoutOneStep(u, order, Ids(), originId, j);
        AppendAssoc(log, done, sent);
        j := j + 1;
      }
      assert order[..j] == order;
    }
  }
}
