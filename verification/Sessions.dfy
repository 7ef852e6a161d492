/**
 The registry of open channels: who is connected to which room, what the registry believes about
 each room's owner, and how messages are redacted on their way out.
 */
module Sessions {
  import opened Basics
  import opened Rooms

  type Connection = nat

  /** What the server sends; relayed signaling payloads are opaque. */
  datatype Message =
    | RoomCreated(code: RoomCode, peer: PeerId, expiresAt: Timestamp)
    | JoinOk(code: RoomCode, peer: PeerId, owner: Option<PeerId>, expiresAt: Timestamp, others: seq<PeerId>)
    | RoomLockedNotice(code: RoomCode, locked: bool)
    | RoomOwnerChanged(code: RoomCode, heir: PeerId)
    | RekeyNotice(code: RoomCode)
    | RoomClosing(code: RoomCode, deadline: Timestamp, expiresAt: Timestamp)
    | RoomClosed(code: RoomCode, reason: string)
    | RoomDetonated(code: RoomCode)
    | RoomCodeRotated(code: RoomCode)
    | PeerJoined(peer: PeerId)
    | PeerLeft(peer: PeerId)
    | PeerMuted(peer: PeerId, until: Option<Timestamp>)
    | PeerUnmuted(peer: PeerId)
    | ChatVisibilityBlocked(peer: PeerId, blocked: bool)
    | FileVisibilityBlocked(peer: PeerId, blocked: bool)
    | Relayed(sender: PeerId)
    | ErrorNotice(kind: string)

  /** The room code a message carries; empty when it carries none. */
  function CodeIn(m: Message): RoomCode
  {
    if m.PeerJoined? || m.PeerLeft? || m.PeerMuted? || m.PeerUnmuted? || m.ChatVisibilityBlocked? || m.FileVisibilityBlocked?
       || m.Relayed? || m.ErrorNotice? then ""
    else m.code
  }

  function Redact(m: Message, redact: bool): Message
  {
    if !redact then m else
      match m
      case JoinOk(_, peer, owner, expiresAt, others) => JoinOk("", peer, owner, expiresAt, others)
      case RoomLockedNotice(_, locked) => RoomLockedNotice("", locked)
      case RoomOwnerChanged(_, heir) => RoomOwnerChanged("", heir)
      case RekeyNotice(_) => RekeyNotice("")
      case RoomClosing(_, deadline, expiresAt) => RoomClosing("", deadline, expiresAt)
      case RoomClosed(_, reason) => RoomClosed("", reason)
      case RoomDetonated(_) => RoomDetonated("")
      case RoomCodeRotated(_) => RoomCodeRotated("")
      case _ => m
  }

  /** Redaction removes the code from every message except the acknowledgment to a room's creator. */
  lemma RedactionRemovesCode(m: Message)
    ensures CodeIn(Redact(m, true)) == "" <==> !m.RoomCreated? || m.code == ""
  {
  }

  datatype Meta = Meta(hopping: bool, owner: Option<PeerId>)

  datatype Registry = Registry(
    rooms: map<RoomId, map<PeerId, Connection>>,
    connections: map<Connection, (RoomId, PeerId)>,
    meta: map<RoomId, Meta>)

  datatype Delivery = Delivery(room: RoomId, peer: PeerId, to: Connection, message: Message)

  predicate ShouldRedact(g: Registry, id: RoomId, peer: PeerId)
  {
    id in g.meta && g.meta[id].hopping && g.meta[id].owner != Some(peer)
  }

  function PeersIn(g: Registry, id: RoomId): map<PeerId, Connection>
  {
    if id in g.rooms then g.rooms[id] else map[]
  }

  function WithMeta(g: Registry, id: RoomId, meta: Meta): Registry
  {
    g.(meta := g.meta[id := meta])
  }

  function WithOwnerMeta(g: Registry, id: RoomId, owner: Option<PeerId>): Registry
  {
    if id in g.meta then g.(meta := g.meta[id := g.meta[id].(owner := owner)]) else g
  }

  function Registered(g: Registry, conn: Connection, id: RoomId, peer: PeerId): Registry
  {
    g.(connections := g.connections[conn := (id, peer)], rooms := g.rooms[id := PeersIn(g, id)[peer := conn]])
  }

  /** A room is forgotten together with the last of its channels. */
  function Unregistered(g: Registry, id: RoomId, peer: PeerId): Registry
  {
    if id !in g.rooms then g
    else if g.rooms[id] - {peer} == map[] then g.(rooms := g.rooms - {id}, meta := g.meta - {id})
    else g.(rooms := g.rooms[id := g.rooms[id] - {peer}])
  }

  function Disconnected(g: Registry, conn: Connection): Registry
  {
    if conn !in g.connections then g else
      var (id, peer) := g.connections[conn];
      Unregistered(g.(connections := g.connections - {conn}), id, peer)
  }

  function Forgotten(g: Registry, id: RoomId): Registry
  {
    g.(rooms := g.rooms - {id}, meta := g.meta - {id})
  }

  function DeliveryTo(g: Registry, id: RoomId, peer: PeerId, m: Message): Delivery
    requires peer in PeersIn(g, id)
  {
    Delivery(id, peer, PeersIn(g, id)[peer], Redact(m, ShouldRedact(g, id, peer)))
  }

  /** What a message to one peer puts into its channel. */
  function Sent(g: Registry, id: RoomId, peer: PeerId, m: Message): set<Delivery>
  {
    if peer in PeersIn(g, id) then {DeliveryTo(g, id, peer, m)} else {}
  }

  /** The form a message takes for each peer of the room. */
  function Letters(g: Registry, id: RoomId, m: Message): map<PeerId, Delivery>
  {
    map p | p in PeersIn(g, id) :: DeliveryTo(g, id, p, m)
  }

  function Picked(letters: map<PeerId, Delivery>, peers: set<PeerId>): set<Delivery>
  {
    set p | p in peers && p in letters :: letters[p]
  }

  function Skipped(except: Option<PeerId>): set<PeerId>
  {
    if except.Some? then {except.value} else {}
  }

  /** What a broadcast puts into the room's channels. */
  function Broadcasted(g: Registry, id: RoomId, m: Message, except: Option<PeerId>): set<Delivery>
  {
    Picked(Letters(g, id, m), PeersIn(g, id).Keys - Skipped(except))
  }

  /** The letters to `order`, one after the other. */
  function Mail(letters: map<PeerId, Delivery>, order: seq<PeerId>): seq<Delivery>
  {
    if order == [] then []
    else
      var last := order[|order| - 1];
      Mail(letters, order[..|order| - 1]) + if last in letters then [letters[last]] else []
  }

  lemma {:induction false} MailOneMore(before: seq<Delivery>, letters: map<PeerId, Delivery>, order: seq<PeerId>, peer: PeerId)
    requires peer in letters
    ensures before + Mail(letters, order) + [letters[peer]] == before + Mail(letters, order + [peer])
  {
    assert (order + [peer])[..|order|] == order;
  }

  lemma {:induction false} MailIsPicked(letters: map<PeerId, Delivery>, order: seq<PeerId>)
    ensures forall d :: d in Mail(letters, order) <==> exists p :: p in order && p in letters && letters[p] == d
  {
    if order != [] {
      var rest, last := order[..|order| - 1], order[|order| - 1];
      MailIsPicked(letters, rest);
      assert order == rest + [last];
    }
  }

  /** `order` names each peer of `peers` once. */
  ghost predicate Enumerates(order: seq<PeerId>, peers: set<PeerId>)
  {
    multiset(order) == multiset(peers)
  }

  lemma OneFewer(todo: set<PeerId>, peer: PeerId)
    requires peer in todo
    ensures multiset(todo) == multiset(todo - {peer}) + multiset{peer}
  {
  }

  /** So a broadcast's mail is the set of its deliveries, whatever the order. */
  lemma {:induction false} MailIsBroadcast(g: Registry, id: RoomId, m: Message, except: Option<PeerId>, order: seq<PeerId>)
    requires Enumerates(order, PeersIn(g, id).Keys - Skipped(except))
    ensures (set d | d in Mail(Letters(g, id, m), order)) == Broadcasted(g, id, m, except)
    ensures |order| == |PeersIn(g, id).Keys - Skipped(except)|
  {
    var peers := PeersIn(g, id).Keys - Skipped(except);
    MailIsPicked(Letters(g, id, m), order);
    assert forall p :: p in order <==> p in multiset(order);
    assert forall p :: p in peers <==> p in multiset(peers);
    assert |multiset(order)| == |order| && |multiset(peers)| == |peers|;
  }

  class PeerSessionRegistry {
    var rooms: map<RoomId, map<PeerId, Connection>>
    var connectionRooms: map<Connection, (RoomId, PeerId)>
    var roomMeta: map<RoomId, Meta>

    /** Everything put into channels so far. */
    var sent: seq<Delivery>

    function Value(): Registry
      reads this
    {
      Registry(rooms, connectionRooms, roomMeta)
    }

    constructor ()
      ensures Value() == Registry(map[], map[], map[]) && sent == []
    {
      rooms, connectionRooms, roomMeta, sent := map[], map[], map[], [];
    }

    method SetRoomMeta(id: RoomId, hopping: bool, owner: Option<PeerId>)
      modifies this
      ensures Value() == WithMeta(old(Value()), id, Meta(hopping, owner)) && sent == old(sent)
    {
      roomMeta := roomMeta[id := Meta(hopping, owner)];
    }

    method SetRoomOwner(id: RoomId, owner: Option<PeerId>)
      modifies this
      ensures Value() == WithOwnerMeta(old(Value()), id, owner) && sent == old(sent)
    {
      if id in roomMeta {
        roomMeta := roomMeta[id := roomMeta[id].(owner := owner)];
      }
    }

    method Register(id: RoomId, peer: PeerId, conn: Connection)
      modifies this
      ensures Value() == old(Value()).(rooms := old(rooms)[id := PeersIn(old(Value()), id)[peer := conn]]) && sent == old(sent)
    {
      if id !in rooms {
        rooms := rooms[id := map[]];
      }
      var channels: map<PeerId, Connection> := rooms[id];
      rooms := rooms[id := channels[peer := conn]];
    }

    method RegisterConnection(conn: Connection, id: RoomId, peer: PeerId)
      modifies this
      ensures Value() == Registered(old(Value()), conn, id, peer) && sent == old(sent)
    {
      connectionRooms := connectionRooms[conn := (id, peer)];
      Register(id, peer, conn);
    }

    method Unregister(id: RoomId, peer: PeerId) returns (removed: Option<Connection>)
      modifies this
      ensures Value() == Unregistered(old(Value()), id, peer) && sent == old(sent)
      ensures removed == if peer in PeersIn(old(Value()), id) then Some(old(rooms)[id][peer]) else None
    {
      var removeRoom := false;
      removed := None;
      if id in rooms {
        if peer in rooms[id] {
          removed := Some(rooms[id][peer]);
        }
        rooms := rooms[id := rooms[id] - {peer}];
        removeRoom := |rooms[id]| == 0;
        assert removeRoom <==> rooms[id] == map[];
      }
      if removeRoom {
        rooms := rooms - {id};
        roomMeta := roomMeta - {id};
        assert rooms == old(rooms) - {id};
      }
    }

    method UnregisterConnection(conn: Connection) returns (session: Option<(RoomId, PeerId)>)
      modifies this
      ensures Value() == Disconnected(old(Value()), conn) && sent == old(sent)
      ensures session == if conn in old(connectionRooms) then Some(old(connectionRooms)[conn]) else None
    {
      if conn !in connectionRooms {
        return None;
      }
      session := Some(connectionRooms[conn]);
      connectionRooms := connectionRooms - {conn};
      var tx := Unregister(session.value.0, session.value.1);
    }

    /** Puts a message into a peer's channel, redacted for that peer. */
    method Post(id: RoomId, peer: PeerId, m: Message)
      requires peer in PeersIn(Value(), id)
      modifies this`sent
      ensures sent == old(sent) + [DeliveryTo(Value(), id, peer, m)]
    {
      sent := sent + [Delivery(id, peer, rooms[id][peer], Redact(m, ShouldRedact(Value(), id, peer)))];
    }

    method PostNext(id: RoomId, peer: PeerId, m: Message, ghost before: seq<Delivery>, ghost order: seq<PeerId>)
      requires peer in PeersIn(Value(), id) && sent == before + Mail(Letters(Value(), id, m), order)
      modifies this`sent
      ensures sent == before + Mail(Letters(Value(), id, m), order + [peer])
    {
      MailOneMore(before, Letters(Value(), id, m), order, peer);
      Post(id, peer, m);
    }

    method SendToPeer(id: RoomId, peer: PeerId, m: Message) returns (found: bool)
      modifies this`sent
      ensures found <==> peer in PeersIn(Value(), id)
      ensures sent == old(sent) + if found then [DeliveryTo(Value(), id, peer, m)] else []
    {
      found := id in rooms && peer in rooms[id];
      if found {
        Post(id, peer, m);
      }
    }

    /** Channels are served in any order. */
    method Broadcast(id: RoomId, m: Message, except: Option<PeerId>) returns (count: nat, ghost order: seq<PeerId>)
      modifies this`sent
      ensures Enumerates(order, PeersIn(Value(), id).Keys - Skipped(except)) && count == |order|
      ensures sent == old(sent) + Mail(Letters(Value(), id, m), order)
    {
      count, order := 0, [];
      if id !in rooms {
        return;
      }
      ghost var letters := Letters(Value(), id, m);
      var todo := rooms[id].Keys - Skipped(except);
      ghost var all := todo;
      while todo != {}
        invariant todo <= rooms[id].Keys
        invariant multiset(order) + multiset(todo) == multiset(all) && count == |order|
        invariant sent == old(sent) + Mail(letters, order)
      {
        var peer :| peer in todo;
        OneFewer(todo, peer);
        PostNext(id, peer, m, old(sent), order);
        order, count := order + [peer], count + 1;
        todo := todo - {peer};
      }
    }

    method RemoveRoom(id: RoomId)
      modifies this
      ensures Value() == Forgotten(old(Value()), id) && sent == old(sent)
    {
      rooms := rooms - {id};
      roomMeta := roomMeta - {id};
    }
  }
}
