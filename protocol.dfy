/**
 * The update envelopes exchanged between the game server and its clients
 * (the `platformer` protocol-buffer messages), the 32-bit integers they
 * carry, and the outbox through which every stream send is modelled.
 */
module Protocol {

  /** Go's `int32`, used for user identifiers and the server's id counter. */
  newtype int32 = x: int | -0x8000_0000 <= x < 0x8000_0000

  const INT32_MIN: int32 := -0x8000_0000
  const INT32_MAX: int32 := 0x7fff_ffff

  /** `x += 1` on an int32: two's-complement wrap-around at the top. */
  function WrappingIncrement(n: int32): (r: int32)
    ensures n < INT32_MAX ==> r as int == n as int + 1
    ensures n == INT32_MAX ==> r == INT32_MIN
  {
    if n == INT32_MAX then INT32_MIN else n + 1
  }

  /** The `Command` enumeration; `Other` stands for any value outside the three named ones. */
  datatype CommandKind = Quit | Joined | Jump | Other

  /** A `Position` message: coordinates and, from clients, velocity components. */
  datatype Position = Position(x: real, y: real, velX: real, velY: real)

  /** The `oneof` payload of both update kinds; `NoPayload` is the unset (nil) case. */
  datatype Payload =
    | CommandPayload(command: CommandKind)
    | PositionPayload(position: Position)
    | NoPayload

  /** A `ServerUpdate`: a payload stamped with the originating user's identifier. */
  datatype ServerUpdate = ServerUpdate(userIdentifier: int32, payload: Payload)

  function JoinedMessage(id: int32): ServerUpdate
  {
    ServerUpdate(id, CommandPayload(Joined))
  }

  /** A position report as the server writes it: X and Y set, velocities left at zero. */
  function PositionMessage(id: int32, x: real, y: real): ServerUpdate
  {
    ServerUpdate(id, PositionPayload(Position(x, y, 0.0, 0.0)))
  }

  /** Why a stream's bearer token was refused (its validation is not part of this model). */
  datatype TokenError = InvalidToken

  /**
   * `order` visits every key of a Go map exactly once: Go leaves the order of
   * `range` over a map unspecified, so the model takes it as a parameter.
   */
  predicate EnumeratesKeys(order: seq<string>, keys: set<string>)
  {
    && (forall i, j :: 0 <= i < j < |order| ==> order[i] != order[j])
    && (forall k :: k in keys ==> k in order)
    && (forall i :: 0 <= i < |order| ==> order[i] in keys)
  }

  /** Splitting a list of distinct keys before its last one. */
  lemma DistinctSplitLast(order: seq<string>, key: string)
    requires order != []
    requires forall i, j :: 0 <= i < j < |order| ==> order[i] != order[j]
    ensures order[|order| - 1] !in order[..|order| - 1]
    ensures key in order <==> key in order[..|order| - 1] || key == order[|order| - 1]
  {
    var prefix := order[..|order| - 1];
    assert order == prefix + [order[|order| - 1]];
    forall i | 0 <= i < |prefix|
      ensures prefix[i] != order[|order| - 1]
    {
      assert prefix[i] == order[i];
    }
  }

  /** `updates[i].UserIdentifier = user_id` for every update of a tick. */
  function Stamp(updates: seq<ServerUpdate>, id: int32): (r: seq<ServerUpdate>)
    ensures |r| == |updates|
    ensures forall i :: 0 <= i < |r| ==> r[i].userIdentifier == id && r[i].payload == updates[i].payload
  {
    seq(|updates|, i requires 0 <= i < |updates| => updates[i].(userIdentifier := id))
  }

  /** One `ServerUpdate` call on the character registered under `to`. */
  datatype Delivery = Delivery(to: string, update: ServerUpdate)

  /** The updates the stream registered under `key` receives, in send order. */
  function Inbox(outbox: seq<Delivery>, key: string): (r: seq<ServerUpdate>)
    ensures |r| <= |outbox|
  {
    if outbox == [] then []
    else
      var last := outbox[|outbox| - 1];
      Inbox(outbox[..|outbox| - 1], key) + (if last.to == key then [last.update] else [])
  }

  lemma {:induction false} InboxAppend(a: seq<Delivery>, b: seq<Delivery>, key: string)
    ensures Inbox(a + b, key) == Inbox(a, key) + Inbox(b, key)
    decreases |b|
  {
    if b == [] {
      assert a + b == a;
    } else {
      var b' := b[..|b| - 1];
      assert (a + b)[..|a + b| - 1] == a + b';
      InboxAppend(a, b', key);
    }
  }

  /** A nonempty sequence is its prefix followed by its last element. */
  lemma SplitLast<T>(s: seq<T>)
    requires s != []
    ensures s[..|s| - 1] + [s[|s| - 1]] == s
  {
  }

  /** Appending a batch to a log that already holds `done` yields the log holding `done + batch`. */
  lemma AppendAssoc<T>(log: seq<T>, done: seq<T>, batch: seq<T>)
    ensures log + done + batch == log + (done + batch)
  {
  }

  /** A batch that sends this stream one update extends its inbox by exactly that update. */
  lemma InboxSnoc(a: seq<Delivery>, b: seq<Delivery>, key: string, xs: seq<ServerUpdate>, x: ServerUpdate)
    requires Inbox(a, key) == xs && Inbox(b, key) == [x]
    ensures Inbox(a + b, key) == xs + [x]
  {
    InboxAppend(a, b, key);
  }

  /** A single send reaches exactly its addressee. */
  lemma InboxOne(d: Delivery, key: string)
    ensures Inbox([d], key) == if d.to == key then [d.update] else []
  {
    assert [d][..0] == [];
  }

  /** A batch that sends this stream nothing leaves what it receives from the batches around it unchanged. */
  lemma InboxAfterQuiet(a: seq<Delivery>, quiet: seq<Delivery>, b: seq<Delivery>, key: string)
    requires Inbox(quiet, key) == []
    ensures Inbox(a + quiet + b, key) == Inbox(a, key) + Inbox(b, key)
  {
    InboxAppend(a + quiet, b, key);
    InboxAppend(a, quiet, key);
  }

  lemma InboxAppend3(a: seq<Delivery>, b: seq<Delivery>, c: seq<Delivery>, key: string)
    ensures Inbox(a + b + c, key) == Inbox(a, key) + Inbox(b, key) + Inbox(c, key)
  {
    InboxAppend(a + b, c, key);
    InboxAppend(a, b, key);
  }

  /** Deliveries to nobody but `key`'s peers leave `key`'s inbox empty. */
  lemma {:induction false} InboxOfOthers(out: seq<Delivery>, key: string)
    requires forall i :: 0 <= i < |out| ==> out[i].to != key
    ensures Inbox(out, key) == []
    decreases |out|
  {
    if out != [] {
      InboxOfOthers(out[..|out| - 1], key);
    }
  }

  /** Every send of `out` is addressed to one of `keys`. */
  predicate AddressedTo(out: seq<Delivery>, keys: set<string>)
  {
    forall i :: 0 <= i < |out| ==> out[i].to in keys
  }

  lemma AddressedAppend(a: seq<Delivery>, b: seq<Delivery>, keys: set<string>)
    requires AddressedTo(a, keys) && AddressedTo(b, keys)
    ensures AddressedTo(a + b, keys)
  {
    forall i | 0 <= i < |a + b|
      ensures (a + b)[i].to in keys
    {
      if i < |a| {
        assert (a + b)[i] == a[i];
      } else {
        assert (a + b)[i] == b[i - |a|];
      }
    }
  }

  lemma AddressedGrow(out: seq<Delivery>, keys: set<string>, more: set<string>)
    requires AddressedTo(out, keys) && keys <= more
    ensures AddressedTo(out, more)
  {
  }

  /** A stream to which none of the sends is addressed receives nothing. */
  lemma InboxOutsideAddressees(out: seq<Delivery>, keys: set<string>, key: string)
    requires AddressedTo(out, keys) && key !in keys
    ensures Inbox(out, key) == []
  {
    InboxOfOthers(out, key);
  }
}
