/**
 * What the clients make of what the servers send: the newcomer's view after
 * its introduction, an existing player's view after hearing of the newcomer,
 * every view following a mover's ticks, and the older server's position
 * updates reaching a client that was never told its identifier.
 */
module Handshake {
  import opened Protocol
  import opened ServerCharacter
  import opened Network
  import opened GameServer
  import LegacyServer

  /** The roster `base` extended, in `order`, by every introduced player other than `newId`, at its position. */
  function Learn(base: map<int32, Player>, order: seq<string>, roster: map<string, Peer>, newId: int32): (m: map<int32, Player>)
    requires forall i :: 0 <= i < |order| ==> order[i] in roster
    decreases |order|
  {
    if order == [] then base
    else
      var p := roster[order[|order| - 1]];
      var m := Learn(base, order[..|order| - 1], roster, newId);
      if p.id != newId then m[p.id := Player("", p.x, p.y)] else m
  }

  /** A client named `v.userIdentifier` that hears the introduction pairs learns exactly `Learn`. */
  lemma {:induction false} ReplayPeerPairs(v: ClientState, order: seq<string>, roster: map<string, Peer>)
    requires forall i :: 0 <= i < |order| ==> order[i] in roster
    requires v.userIdentifier != UNJOINED
    ensures Replay(v, PeerPairs(order, roster, v.userIdentifier)) ==
            Applied(ClientState(v.userIdentifier, Learn(v.players, order, roster, v.userIdentifier)))
    decreases |order|
  {
    var id := v.userIdentifier;
    if order != [] {
      var prefix := order[..|order| - 1];
      var p := roster[order[|order| - 1]];
      ReplayPeerPairs(v, prefix, roster);
      var w := ClientState(id, Learn(v.players, prefix, roster, id));
      var pair := if p.id != id then [JoinedMessage(p.id), PositionMessage(p.id, p.x, p.y)] else [];
      assert PeerPairs(order, roster, id) == PeerPairs(prefix, roster, id) + pair;
      ReplayAppend(v, PeerPairs(prefix, roster, id), pair);
      if p.id != id {
        var joined := ClientState(id, w.players[p.id := NewPlayer()]);
        var placed := ClientState(id, w.players[p.id := Player("", p.x, p.y)]);
        assert joined.players[p.id := Player("", p.x, p.y)] == placed.players;
        assert OnUpdate(w, pair[0]) == Applied(joined);
        assert OnUpdate(joined, pair[1]) == Applied(placed);
        assert pair[1..] == [pair[1]] && pair[1..][1..] == [];
        assert Replay(w, pair) == Replay(joined, [pair[1]]) == Applied(placed);
      } else {
        assert Replay(w, pair) == Applied(w);
      }
    }
  }

  /** The learnt roster holds nobody but introduced players other than the newcomer. */
  lemma {:induction false} LearnOnlyIntroduced(order: seq<string>, roster: map<string, Peer>, newId: int32)
    requires forall i :: 0 <= i < |order| ==> order[i] in roster
    ensures forall k :: k in Learn(map[], order, roster, newId) ==>
              k != newId && exists i :: 0 <= i < |order| && roster[order[i]].id == k
    decreases |order|
  {
    if order != [] {
      var prefix := order[..|order| - 1];
      LearnOnlyIntroduced(prefix, roster, newId);
      var m := Learn(map[], prefix, roster, newId);
      forall k | k in Learn(map[], order, roster, newId)
        ensures k != newId && exists i :: 0 <= i < |order| && roster[order[i]].id == k
      {
        if k in m {
          var i :| 0 <= i < |prefix| && roster[prefix[i]].id == k;
          assert order[i] == prefix[i];
        } else {
          assert roster[order[|order| - 1]].id == k;
        }
      }
    }
  }

  /** Where the introduced players' ids are distinct, the learnt roster holds each one other than the newcomer at its position. */
  lemma {:induction false} LearnHoldsEach(order: seq<string>, roster: map<string, Peer>, newId: int32)
    requires forall i :: 0 <= i < |order| ==> order[i] in roster
    requires forall i, j :: 0 <= i < j < |order| ==> roster[order[i]].id != roster[order[j]].id
    ensures forall i :: 0 <= i < |order| && roster[order[i]].id != newId ==>
              var p := roster[order[i]];
              p.id in Learn(map[], order, roster, newId) && Learn(map[], order, roster, newId)[p.id] == Player("", p.x, p.y)
    decreases |order|
  {
    if order != [] {
      var prefix := order[..|order| - 1];
      forall a, b | 0 <= a < b < |prefix|
        ensures roster[prefix[a]].id != roster[prefix[b]].id
      {
        assert prefix[a] == order[a] && prefix[b] == order[b];
      }
      LearnHoldsEach(prefix, roster, newId);
      forall i | 0 <= i < |order| && roster[order[i]].id != newId
        ensures roster[order[i]].id in Learn(map[], order, roster, newId)
        ensures Learn(map[], order, roster, newId)[roster[order[i]].id] == Player("", roster[order[i]].x, roster[order[i]].y)
      {
        if i < |prefix| {
          assert order[i] == prefix[i];
        }
      }
    }
  }

  /**
   * The newcomer's client, fresh from `NewNetworkClient`, adopts the id of its
   * first JOINED and then knows every other introduced player at its position.
   */
  lemma NewcomerLearnsRoster(order: seq<string>, roster: map<string, Peer>, n: Peer)
    requires forall i :: 0 <= i < |order| ==> order[i] in roster
    requires n.id != UNJOINED
    ensures Replay(ClientState(UNJOINED, map[]), [JoinedMessage(n.id)] + PeerPairs(order, roster, n.id)) ==
            Applied(ClientState(n.id, Learn(map[], order, roster, n.id)))
  {
    var start := ClientState(UNJOINED, map[]);
    ReplayAppend(start, [JoinedMessage(n.id)], PeerPairs(order, roster, n.id));
    assert Replay(start, [JoinedMessage(n.id)]) == Applied(ClientState(n.id, map[]));
    ReplayPeerPairs(ClientState(n.id, map[]), order, roster);
  }

  /** A joined client other than the newcomer adds it to its roster, at the position it was sent. */
  lemma PeerLearnsNewcomer(v: ClientState, n: Peer)
    requires v.userIdentifier != UNJOINED && v.userIdentifier != n.id
    ensures Replay(v, [JoinedMessage(n.id), PositionMessage(n.id, n.x, n.y)]) ==
            Applied(v.(players := v.players[n.id := Player("", n.x, n.y)]))
  {
    var joined := v.(players := v.players[n.id := NewPlayer()]);
    var placed := v.(players := v.players[n.id := Player("", n.x, n.y)]);
    assert joined.players[n.id := Player("", n.x, n.y)] == placed.players;
    assert OnUpdate(v, JoinedMessage(n.id)) == Applied(joined);
    assert OnUpdate(joined, PositionMessage(n.id, n.x, n.y)) == Applied(placed);
    var both := [JoinedMessage(n.id), PositionMessage(n.id, n.x, n.y)];
    assert both[1..] == [PositionMessage(n.id, n.x, n.y)] && both[1..][1..] == [];
    assert Replay(v, both) == Replay(joined, both[1..]) == Replay(placed, []);
  }

  /** After a connection the newcomer's stream has been sent its JOINED, then the introduction pairs. */
  lemma ConnectInboxOfNewcomer(before: seq<Delivery>, order: seq<string>, roster: map<string, Peer>,
                               newKey: string, n: Peer)
    requires forall i :: 0 <= i < |order| ==> order[i] in roster
    requires newKey in roster && roster[newKey].id == n.id
    ensures Inbox(before + [Delivery(newKey, JoinedMessage(n.id))] + Introductions(order, roster, newKey, n), newKey) ==
            Inbox(before, newKey) + [JoinedMessage(n.id)] + PeerPairs(order, roster, n.id)
  {
    var self := [Delivery(newKey, JoinedMessage(n.id))];
    InboxAppend3(before, self, Introductions(order, roster, newKey, n), newKey);
    InboxOne(self[0], newKey);
    IntroductionReachesNewcomer(order, roster, newKey, n);
  }

  /**
   * A stream that had been sent nothing before the connection, as `Connect`
   * guarantees for the newcomer's, brings a fresh client exactly to its id and
   * the learnt roster.
   */
  lemma NewcomerHandshake(before: seq<Delivery>, order: seq<string>, roster: map<string, Peer>, newKey: string, n: Peer)
    requires forall i :: 0 <= i < |order| ==> order[i] in roster
    requires newKey in roster && roster[newKey].id == n.id && n.id != UNJOINED
    requires Inbox(before, newKey) == []
    ensures Replay(ClientState(UNJOINED, map[]),
                   Inbox(before + [Delivery(newKey, JoinedMessage(n.id))] + Introductions(order, roster, newKey, n), newKey)) ==
            Applied(ClientState(n.id, Learn(map[], order, roster, n.id)))
  {
    ConnectInboxOfNewcomer(before, order, roster, newKey, n);
    assert Inbox(before, newKey) + [JoinedMessage(n.id)] + PeerPairs(order, roster, n.id) ==
           [JoinedMessage(n.id)] + PeerPairs(order, roster, n.id);
    NewcomerLearnsRoster(order, roster, n);
  }

  /** After a connection every other registered player's stream has been sent the newcomer's JOINED and position. */
  lemma ConnectInboxOfPeer(before: seq<Delivery>, order: seq<string>, roster: map<string, Peer>,
                           newKey: string, n: Peer, key: string)
    requires forall i :: 0 <= i < |order| ==> order[i] in roster
    requires forall i, j :: 0 <= i < j < |order| ==> order[i] != order[j]
    requires key in order && key != newKey && key in roster && roster[key].id != n.id
    ensures Inbox(before + [Delivery(newKey, JoinedMessage(n.id))] + Introductions(order, roster, newKey, n), key) ==
            Inbox(before, key) + [JoinedMessage(n.id), PositionMessage(n.id, n.x, n.y)]
  {
    var self := [Delivery(newKey, JoinedMessage(n.id))];
    var intro := Introductions(order, roster, newKey, n);
    assert Inbox(self, key) == [] by {
      InboxOne(self[0], key);
    }
    assert Inbox(intro, key) == [JoinedMessage(n.id), PositionMessage(n.id, n.x, n.y)] by {
      IntroductionReachesPeer(order, roster, newKey, n, key);
    }
    InboxAfterQuiet(before, self, intro, key);
  }

  /**
   * A joined client that knows the mover follows its tick: the mover's entry
   * takes the new coordinates when it moved, and nothing else changes.
   */
  lemma ClientFollowsTick(v: ClientState, moverId: int32, before: Body, after: Body)
    requires v.userIdentifier != moverId && moverId in v.players
    ensures Replay(v, Stamp(Emission(before, after), moverId)) ==
            Applied(if after.x != before.x || after.y != before.y
                    then v.(players := v.players[moverId := v.players[moverId].(x := after.x, y := after.y)])
                    else v)
  {
    var updates := Stamp(Emission(before, after), moverId);
    if |updates| == 1 {
      assert updates[0] == PositionMessage(moverId, after.x, after.y);
      assert updates[1..] == [];
    }
  }

  /** A client without the mover in its roster dereferences nil on the mover's first move. */
  lemma UnknownMoverCrashesClient(v: ClientState, moverId: int32, before: Body, after: Body)
    requires v.userIdentifier != moverId && moverId !in v.players
    requires after.x != before.x || after.y != before.y
    ensures Replay(v, Stamp(Emission(before, after), moverId)) == NilDereference
  {
    var updates := Stamp(Emission(before, after), moverId);
    assert updates[0] == PositionMessage(moverId, after.x, after.y);
  }

  /**
   * The older server never sends JOINED and stamps every update 0, so a
   * client fresh from `NewNetworkClient` dereferences nil on the first move
   * of any character, its own included.
   */
  lemma LegacyMoveCrashesFreshClient(before: Body, after: Body)
    requires after.x != before.x || after.y != before.y
    ensures Replay(ClientState(UNJOINED, map[]), Stamp(Emission(before, after), LegacyServer.LEGACY_ID)) == NilDereference
  {
    UnknownMoverCrashesClient(ClientState(UNJOINED, map[]), LegacyServer.LEGACY_ID, before, after);
  }
}
