/**
 * The older game server: connections are registered under the bare user
 * name, nobody is introduced, and every update of a tick is stamped with
 * identifier 0 and sent to every registered player, the sender included.
 */
module LegacyServer {
  import opened Wrappers
  import opened Protocol
  import opened Levels
  import opened ServerCharacter

  /** The identifier every update of this server carries. */
  const LEGACY_ID: int32 := 0

  /** One update sent to every player in `order`. */
  function CopyToAll(u: ServerUpdate, order: seq<string>): (r: seq<Delivery>)
    ensures |r| == |order|
    ensures forall i :: 0 <= i < |r| ==> r[i] == Delivery(order[i], u)
  {
    seq(|order|, i requires 0 <= i < |order| => Delivery(order[i], u))
  }

  /** Every update of a tick, in order, sent to every player in `order`. */
  function BroadcastAll(updates: seq<ServerUpdate>, order: seq<string>): (r: seq<Delivery>)
    ensures |r| == |updates| * |order|
    ensures forall i :: 0 <= i < |r| ==> r[i].update in updates && r[i].to in order
    decreases |updates|
  {
    if updates == [] then []
    else BroadcastAll(updates[..|updates| - 1], order) + CopyToAll(updates[|updates| - 1], order)
  }

  lemma BroadcastAllStep(updates: seq<ServerUpdate>, order: seq<string>, i: nat)
    requires i < |updates|
    ensures BroadcastAll(updates[..i + 1], order) == BroadcastAll(updates[..i], order) + CopyToAll(updates[i], order)
  {
    assert updates[..i + 1][..i] == updates[..i];
  }

  lemma {:induction false} CopyToAllInbox(u: ServerUpdate, order: seq<string>, key: string)
    requires forall i, j :: 0 <= i < j < |order| ==> order[i] != order[j]
    ensures Inbox(CopyToAll(u, order), key) == if key in order then [u] else []
    decreases |order|
  {
    if order != [] {
      var prefix, last := order[..|order| - 1], order[|order| - 1];
      assert CopyToAll(u, order)[..|order| - 1] == CopyToAll(u, prefix);
      DistinctSplitLast(order, key);
      CopyToAllInbox(u, prefix, key);
      InboxAppend(CopyToAll(u, prefix), [Delivery(last, u)], key);
    }
  }

  /** Every registered player, the sender included, receives every update of the tick once, in order. */
  lemma {:induction false} BroadcastReaches(updates: seq<ServerUpdate>, order: seq<string>, key: string)
    requires forall i, j :: 0 <= i < j < |order| ==> order[i] != order[j]
    requires key in order
    ensures Inbox(BroadcastAll(updates, order), key) == updates
    decreases |updates|
  {
    if updates != [] {
      var prefix, last := updates[..|updates| - 1], updates[|updates| - 1];
      var before, now := BroadcastAll(prefix, order), CopyToAll(last, order);
      assert BroadcastAll(updates, order) == before + now;
      BroadcastReaches(prefix, order, key);
      CopyToAllInbox(last, order, key);
      InboxSnoc(before, now, key, prefix, last);
      SplitLast(updates);
    }
  }

  lemma {:induction false} BroadcastSkips(updates: seq<ServerUpdate>, order: seq<string>, key: string)
    requires forall i, j :: 0 <= i < j < |order| ==> order[i] != order[j]
    requires key !in order
    ensures Inbox(BroadcastAll(updates, order), key) == []
    decreases |updates|
  {
    if updates != [] {
      var prefix, last := updates[..|updates| - 1], updates[|updates| - 1];
      BroadcastSkips(prefix, order, key);
      CopyToAllInbox(last, order, key);
      InboxAppend(BroadcastAll(prefix, order), CopyToAll(last, order), key);
    }
  }

  /** Every registered player, the sender included, receives every update of the tick once, in order. */
  lemma BroadcastAllInbox(updates: seq<ServerUpdate>, order: seq<string>, key: string)
    requires forall i, j :: 0 <= i < j < |order| ==> order[i] != order[j]
    ensures Inbox(BroadcastAll(updates, order), key) == if key in order then updates else []
  {
    if key in order {
      BroadcastReaches(updates, order, key);
    } else {
      BroadcastSkips(updates, order, key);
    }
  }

  class GameServer {
    const level: Level
    var players: map<string, Character>
    var outbox: seq<Delivery>

    /** `NewGameServer` once its public key is loaded. */
    constructor NewGameServer()
      ensures players == map[] && outbox == [] && level == NewLevel()
    {
      level := NewLevel();
      players := map[];
      outbox := [];
    }

    /**
     * Registration of one connection under its `user` claim; a player already
     * registered under the same name is replaced.  Nothing is sent.
     */
    method Connect(validated: Result<string, TokenError>) returns (r: Result<Character, TokenError>)
      modifies this`players
      ensures validated.Failure? ==> r == Failure(validated.error) && players == old(players)
      ensures validated.Success? ==>
                && r.Success? && fresh(r.value)
                && r.value.userName == validated.value && r.value.userId == LEGACY_ID
                && r.value.State() == NewBody(SPAWN_X, SPAWN_Y)
                && players == old(players)[validated.value := r.value]
    {
      if validated.Failure? {
        return Failure(validated.error);
      }
      var username := validated.value;
      var character := new Character.NewNetworkCharacter(SPAWN_X, SPAWN_Y, username, LEGACY_ID);
      players := players[username := character];
      r := Success(character);
    }

    /** One iteration of a connection's tick loop: the tick, then every update stamped 0 and sent to everyone. */
    method TickBroadcast(origin: Character, order: seq<string>)
      requires EnumeratesKeys(order, players.Keys)
      modifies this`outbox, origin
      ensures origin.State() == Physics(old(origin.State()), level)
      ensures outbox == old(outbox) + BroadcastAll(Stamp(Emission(old(origin.State()), origin.State()), LEGACY_ID), order)
    {
      var updates := origin.Tick(level);
      updates := Stamp(updates, LEGACY_ID);
      Broadcast(updates, order);
    }

    /** Sends each update, in order, to every player in `order`. */
    method Broadcast(updates: seq<ServerUpdate>, order: seq<string>)
      requires forall i :: 0 <= i < |order| ==> order[i] in players
      modifies this`outbox
      ensures outbox == old(outbox) + BroadcastAll(updates, order)
    {
      ghost var log := outbox;
      var i := 0;
      while i < |updates|
        invariant 0 <= i <= |updates|
        invariant outbox == log + BroadcastAll(updates[..i], order)
      {
        ghost var done := BroadcastAll(updates[..i], order);
        SendToAll(updates[i], order);
        BroadcastAllStep(updates, order, i);
        AppendAssoc(log, done, CopyToAll(updates[i], order));
        i := i + 1;
      }
      assert updates[..i] == updates;
    }

    /** The inner loop: one update to every player in `order`. */
    method SendToAll(u: ServerUpdate, order: seq<string>)
      requires forall i :: 0 <= i < |order| ==> order[i] in players
      modifies this`outbox
      ensures outbox == old(outbox) + CopyToAll(u, order)
    {
      ghost var log := outbox;
      var j := 0;
      while j < |order|
        invariant 0 <= j <= |order|
        invariant outbox == log + CopyToAll(u, order[..j])
      {
        ghost var done := CopyToAll(u, order[..j]);
        assert CopyToAll(u, order[..j + 1]) == done + [Delivery(order[j], u)];
        outbox := outbox + [Delivery(order[j], u)];
        AppendAssoc(log, done, [Delivery(order[j], u)]);
        j := j + 1;
      }
      assert order[..j] == order;
    }
  }
}
