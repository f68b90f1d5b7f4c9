/** The HTTP status codes server/main.go answers with, as `net/http`
    names them. */
module HttpStatus {
  const StatusOK: int := 200
  const StatusCreated: int := 201
  const StatusBadRequest: int := 400
  const StatusMethodNotAllowed: int := 405
  const StatusConflict: int := 409
  const StatusServiceUnavailable: int := 503
}

/** The room relay of server/main.go. Clients join a room as users or as
    agents; text frames are routed by message type, binary frames (audio)
    cross from users to agents and back. The sockets themselves are not
    modelled: a send is the client it goes to. Go ranges over maps in an
    unspecified order, so a routing decision is a sequence of waves: the
    clients of one wave are written to in some order, the waves one after
    another. */
module RoomServer {
  import opened Common
  import opened HttpStatus

  datatype ClientType = User | Agent

  /** The `type` query parameter with its default: anything but "user" or
      "agent" joins as a user. */
  function ParseClientType(t: string): (r: ClientType)
    ensures r == Agent <==> t == "agent"
  {
    if t == "agent" then Agent else User
  }

  datatype QueryOutcome =
    | Rejected(status: int, reason: string)
    | Admitted(roomId: string, clientId: string, clientType: ClientType)

  /** The checks `handleWebSocket` makes before upgrading the connection. */
  function ValidateQuery(roomId: string, clientId: string, clientType: string): (r: QueryOutcome)
    ensures r.Admitted? <==> roomId != "" && clientId != ""
    ensures r.Rejected? ==> r.status == StatusBadRequest
    ensures roomId == "" ==> r == Rejected(StatusBadRequest, "room query param required")
    ensures roomId != "" && clientId == "" ==> r == Rejected(StatusBadRequest, "clientId query param required")
    ensures r.Admitted? ==>
      && r.roomId == roomId && r.clientId == clientId
      && (r.clientType == Agent <==> clientType == "agent")
  {
    if roomId == "" then Rejected(StatusBadRequest, "room query param required")
    else if clientId == "" then Rejected(StatusBadRequest, "clientId query param required")
    else Admitted(roomId, clientId, ParseClientType(clientType))
  }

  /** `Message`; `to` is empty when the JSON had no `"to"`. */
  datatype Message = Message(msgType: string, from: string, to: seq<string>, data: Json,
                             metadata: map<string, Json>, timestamp: int)

  /** `updateClientMetadata`: an object payload is merged key by key, its
      values winning; any other payload changes nothing. */
  function Merged(metadata: map<string, Json>, data: Json): (r: map<string, Json>)
    ensures data.JObject? ==> r.Keys == metadata.Keys + data.fields.Keys
    ensures !data.JObject? ==> r == metadata
    ensures forall k :: k in r ==> r[k] == if data.JObject? && k in data.fields then data.fields[k] else metadata[k]
  {
    if data.JObject? then metadata + data.fields else metadata
  }

  /** A connected client. Its identity is the object, as the relay compares
      `*Client` pointers; the connection itself is not modelled. */
  class Client {
    const room: string
    const clientId: string
    const clientType: ClientType
    var metadata: map<string, Json>

    constructor (room: string, clientId: string, clientType: ClientType)
      ensures this.room == room && this.clientId == clientId && this.clientType == clientType
      ensures metadata == map[]
    {
      this.room := room;
      this.clientId := clientId;
      this.clientType := clientType;
      metadata := map[];
    }

    /** `updateClientMetadata`: copies the pairs of an object payload one by
        one. */
    method UpdateMetadata(data: Json)
      modifies this
      ensures metadata == Merged(old(metadata), data)
    {
      if data.JObject? {
        var fields := data.fields;
        var keys := fields.Keys;
        while keys != {}
          invariant keys <= fields.Keys
          invariant metadata == old(metadata) + (fields - keys)
          decreases keys
        {
          var key :| key in keys;
          assert old(metadata) + (fields - (keys - {key})) == (old(metadata) + (fields - keys))[key := fields[key]];
          metadata := metadata[key := fields[key]];
          keys := keys - {key};
        }
        assert fields - {} == fields;
      }
    }
  }

  /** `RoomInfo` without its creation time. */
  datatype Room = Room(users: map<string, Client>, agents: map<string, Client>)

  const EmptyRoom := Room(map[], map[])

  type Rooms = map<string, Room>

  /** Every client of the room, users and agents. */
  function Members(room: Room): set<Client> {
    room.users.Values + room.agents.Values
  }

  /** Each client of the room is filed under its own id in the map of its
      own type. */
  predicate Filed(room: Room) {
    && (forall id :: id in room.users ==> room.users[id].clientId == id && room.users[id].clientType == User)
    && (forall id :: id in room.agents ==> room.agents[id].clientId == id && room.agents[id].clientType == Agent)
  }

  /** What the relay keeps true of its rooms: none is empty, and each is
      filed. */
  predicate WellFormed(rooms: Rooms) {
    forall r :: r in rooms ==> (rooms[r].users != map[] || rooms[r].agents != map[]) && Filed(rooms[r])
  }

  /** The room `roomId` names, an empty one when there is none. */
  function RoomOf(rooms: Rooms, roomId: string): Room {
    if roomId in rooms then rooms[roomId] else EmptyRoom
  }

  /** `room` with `client` filed under its id in the map of its type,
      replacing whatever that map held under the id. */
  function File(room: Room, client: Client): Room {
    if client.clientType == Agent then room.(agents := room.agents[client.clientId := client])
    else room.(users := room.users[client.clientId := client])
  }

  /** `room` without the entry under the client's id in the map of its
      type, whichever client that entry holds. */
  function Unfile(room: Room, client: Client): Room {
    if client.clientType == Agent then room.(agents := room.agents - {client.clientId})
    else room.(users := room.users - {client.clientId})
  }

  /** The rooms after `addClientToRoom`: the room is created if absent. */
  function Joined(rooms: Rooms, roomId: string, client: Client): (r: Rooms)
    ensures r.Keys == rooms.Keys + {roomId}
    ensures forall q :: q in rooms && q != roomId ==> r[q] == rooms[q]
  {
    rooms[roomId := File(RoomOf(rooms, roomId), client)]
  }

  /** The rooms after `removeClientFromRoom`: a room left with no client is
      deleted, and an unknown room is left alone. */
  function Left(rooms: Rooms, roomId: string, client: Client): (r: Rooms)
    ensures r.Keys <= rooms.Keys
    ensures forall q :: q in rooms && q != roomId ==> q in r && r[q] == rooms[q]
  {
    if roomId !in rooms then rooms
    else
      var room := Unfile(rooms[roomId], client);
      if room.users == map[] && room.agents == map[] then rooms - {roomId} else rooms[roomId := room]
  }

  /** Joining files the client in its room. */
  lemma JoinedAdmits(rooms: Rooms, roomId: string, client: Client)
    ensures client in Members(Joined(rooms, roomId, client)[roomId])
  {
    var room := File(RoomOf(rooms, roomId), client);
    if client.clientType == Agent {
      assert room.agents[client.clientId] == client;
    } else {
      assert room.users[client.clientId] == client;
    }
  }

  lemma JoinedKeepsWellFormed(rooms: Rooms, roomId: string, client: Client)
    requires WellFormed(rooms)
    ensures WellFormed(Joined(rooms, roomId, client))
  {
    var room := File(RoomOf(rooms, roomId), client);
    assert Filed(RoomOf(rooms, roomId));
    if client.clientType == Agent {
      assert client.clientId in room.agents;
    } else {
      assert client.clientId in room.users;
    }
    assert Filed(room);
  }

  /** The room, if it is kept, loses the entry under the client's id in the
      map of its type and nothing else, and still has a member. */
  lemma LeftUnfiles(rooms: Rooms, roomId: string, client: Client)
    ensures var r := Left(rooms, roomId, client);
      && (roomId in r ==> r[roomId] == Unfile(rooms[roomId], client) && Members(r[roomId]) != {})
      && (roomId in rooms && roomId !in r ==> Members(Unfile(rooms[roomId], client)) == {})
  {
    var r := Left(rooms, roomId, client);
    if roomId in r {
      var room := r[roomId];
      assert room.users != map[] || room.agents != map[];
      if room.users != map[] {
        var k :| k in room.users;
        assert room.users[k] in Members(room);
      } else {
        var k :| k in room.agents;
        assert room.agents[k] in Members(room);
      }
    }
  }

  lemma LeftKeepsWellFormed(rooms: Rooms, roomId: string, client: Client)
    requires WellFormed(rooms)
    ensures WellFormed(Left(rooms, roomId, client))
  {
    if roomId in rooms {
      assert Filed(rooms[roomId]);
      assert Filed(Unfile(rooms[roomId], client));
    }
  }

  // ---------------------------------------------------------------------
  // Routing

  /** The clients of a map other than the sender (a pointer comparison). */
  function Others(clients: map<string, Client>, sender: Client): (r: set<Client>)
    ensures r <= clients.Values && sender !in r
    ensures forall c :: c in clients.Values && c != sender ==> c in r
  {
    set c | c in clients.Values && c != sender
  }

  /** `broadcastToRoom`: every user but the sender, then every agent but the
      sender; nothing for an unknown room. */
  function Broadcast(rooms: Rooms, roomId: string, sender: Client): (r: seq<set<Client>>)
    ensures roomId !in rooms ==> r == []
    ensures roomId in rooms ==>
      && |r| == 2
      && r[0] == rooms[roomId].users.Values - {sender}
      && r[1] == rooms[roomId].agents.Values - {sender}
  {
    if roomId !in rooms then [] else [Others(rooms[roomId].users, sender), Others(rooms[roomId].agents, sender)]
  }

  /** `sendToAgents`. */
  function ToAgents(rooms: Rooms, roomId: string, sender: Client): (r: seq<set<Client>>)
    ensures roomId !in rooms ==> r == []
    ensures roomId in rooms ==> r == [rooms[roomId].agents.Values - {sender}]
  {
    if roomId !in rooms then []
    else
      var o := Others(rooms[roomId].agents, sender);
      assert o == rooms[roomId].agents.Values - {sender};
      [o]
  }

  /** `sendToUsers`. */
  function ToUsers(rooms: Rooms, roomId: string, sender: Client): (r: seq<set<Client>>)
    ensures roomId !in rooms ==> r == []
    ensures roomId in rooms ==> r == [rooms[roomId].users.Values - {sender}]
  {
    if roomId !in rooms then []
    else
      var o := Others(rooms[roomId].users, sender);
      assert o == rooms[roomId].users.Values - {sender};
      [o]
  }

  /** One id of a selective send: the user with that id, then the agent. */
  function Hits(room: Room, id: string): (r: seq<set<Client>>)
    ensures |r| <= 2
    ensures forall i :: 0 <= i < |r| ==> |r[i]| == 1
  {
    (if id in room.users then [{room.users[id]}] else []) + (if id in room.agents then [{room.agents[id]}] else [])
  }

  /** The ids of a selective send, one after another. */
  function Targeted(room: Room, to: seq<string>): (r: seq<set<Client>>)
    ensures |r| <= 2 * |to|
    ensures forall i :: 0 <= i < |r| ==> |r[i]| == 1
  {
    if to == [] then [] else Hits(room, to[0]) + Targeted(room, to[1..])
  }

  /** `selectiveSend`: an empty `to` is a broadcast. */
  function Selective(rooms: Rooms, roomId: string, sender: Client, to: seq<string>): (r: seq<set<Client>>)
    // with no ids listed it is a broadcast
    ensures |to| == 0 ==> r == Broadcast(rooms, roomId, sender)
    // otherwise every wave is one client, at most a user and an agent per listed id
    ensures |to| > 0 ==> |r| <= 2 * |to| && forall i :: 0 <= i < |r| ==> |r[i]| == 1
    ensures |to| > 0 && roomId !in rooms ==> r == []
  {
    if |to| == 0 then Broadcast(rooms, roomId, sender)
    else if roomId !in rooms then []
    else Targeted(rooms[roomId], to)
  }

  /** `handleMessage`: the sends a text message causes. A "metadata"
      message sends nothing (`UpdateMetadata` is its effect); an unknown
      type is broadcast. */
  function Dispatch(rooms: Rooms, roomId: string, sender: Client, msg: Message): (r: seq<set<Client>>)
    // the known types go to their handlers, and metadata reaches no one
    ensures msg.msgType == "broadcast" ==> r == Broadcast(rooms, roomId, sender)
    ensures msg.msgType == "selective" ==> r == Selective(rooms, roomId, sender, msg.to)
    ensures msg.msgType == "agent_only" ==> r == ToAgents(rooms, roomId, sender)
    ensures msg.msgType == "user_only" ==> r == ToUsers(rooms, roomId, sender)
    ensures msg.msgType == "metadata" ==> r == []
    // only a selective send can come back to its sender
    ensures msg.msgType != "selective" ==> forall i :: 0 <= i < |r| ==> sender !in r[i]
    // an unknown type is a broadcast
    ensures msg.msgType !in ["selective", "agent_only", "user_only", "metadata"] ==> r == Broadcast(rooms, roomId, sender)
  {
    match msg.msgType
    case "broadcast" => Broadcast(rooms, roomId, sender)
    case "selective" => Selective(rooms, roomId, sender, msg.to)
    case "agent_only" => ToAgents(rooms, roomId, sender)
    case "user_only" => ToUsers(rooms, roomId, sender)
    case "metadata" => []
    case _ => Broadcast(rooms, roomId, sender)
  }

  /** Every client some wave reaches. */
  function Delivered(waves: seq<set<Client>>): set<Client> {
    if waves == [] then {} else waves[0] + Delivered(waves[1..])
  }

  /** `forwardAudioToAgents` / `forwardAudioToUsers`: a user's audio goes
      to the agents, an agent's to the users, skipping any client whose id
      is the sender's id. */
  function AudioRecipients(rooms: Rooms, roomId: string, fromId: string, fromType: ClientType): (r: set<Client>)
    ensures roomId !in rooms ==> r == {}
    ensures roomId in rooms ==>
      var crossed := if fromType == User then rooms[roomId].agents.Values else rooms[roomId].users.Values;
      && r <= crossed
      && (forall c :: c in r ==> c.clientId != fromId)
      && (forall c :: c in crossed && c.clientId != fromId ==> c in r)
  {
    if roomId !in rooms then {}
    else if fromType == User then set c | c in rooms[roomId].agents.Values && c.clientId != fromId
    else set c | c in rooms[roomId].users.Values && c.clientId != fromId
  }

  /** A text frame as routed: `From` is the sender's id whatever the client
      wrote, and the timestamp is the relay's clock. */
  function Stamped(msg: Message, clientId: string, now: int): (r: Message)
    ensures r.from == clientId && r.timestamp == now
    ensures r.msgType == msg.msgType && r.to == msg.to && r.data == msg.data && r.metadata == msg.metadata
  {
    msg.(from := clientId, timestamp := now)
  }

  // ---------------------------------------------------------------------
  // Properties of the routing

  lemma {:induction false} DeliveredAppend(a: seq<set<Client>>, b: seq<set<Client>>)
    ensures Delivered(a + b) == Delivered(a) + Delivered(b)
    decreases |a|
  {
    if a == [] {
      assert a + b == b;
    } else {
      assert (a + b)[1..] == a[1..] + b;
      DeliveredAppend(a[1..], b);
    }
  }

  /** A broadcast reaches exactly the room's other clients, once each: the
      union of `sendToUsers` and `sendToAgents`, and never the sender. */
  lemma BroadcastReachesOthers(rooms: Rooms, roomId: string, sender: Client)
    ensures Delivered(Broadcast(rooms, roomId, sender))
         == Delivered(ToUsers(rooms, roomId, sender)) + Delivered(ToAgents(rooms, roomId, sender))
    ensures forall c :: c in Delivered(Broadcast(rooms, roomId, sender)) <==>
      roomId in rooms && c in Members(rooms[roomId]) && c != sender
    ensures sender !in Delivered(Broadcast(rooms, roomId, sender))
  {
    if roomId in rooms {
      var u := Others(rooms[roomId].users, sender);
      var a := Others(rooms[roomId].agents, sender);
      assert Delivered([u, a]) == u + Delivered([a]);
      assert Delivered([a]) == a + Delivered([]);
      assert Delivered([u]) == u + Delivered([]);
    }
  }

  /** Listing ids one after another sends their waves one after another, so
      a repeated id is sent to again. */
  lemma {:induction false} TargetedAppend(room: Room, a: seq<string>, b: seq<string>)
    ensures Targeted(room, a + b) == Targeted(room, a) + Targeted(room, b)
    decreases |a|
  {
    if a == [] {
      assert a + b == b;
    } else {
      assert (a + b)[0] == a[0];
      assert (a + b)[1..] == a[1..] + b;
      TargetedAppend(room, a[1..], b);
    }
  }

  /** The clients one id of a selective send reaches: the user and the
      agent filed under it. */
  lemma HitsReach(room: Room, id: string)
    ensures Delivered(Hits(room, id))
         == (if id in room.users then {room.users[id]} else {}) + (if id in room.agents then {room.agents[id]} else {})
  {
    var h := (if id in room.users then [{room.users[id]}] else []);
    var g := (if id in room.agents then [{room.agents[id]}] else []);
    DeliveredAppend(h, g);
    if id in room.users { assert Delivered(h) == {room.users[id]} + Delivered([]); }
    if id in room.agents { assert Delivered(g) == {room.agents[id]} + Delivered([]); }
  }

  /** In a filed room the clients one id reaches are the members with that
      id. */
  lemma HitsReachNamed(room: Room, id: string)
    requires Filed(room)
    ensures forall c :: c in Delivered(Hits(room, id)) <==> c in Members(room) && c.clientId == id
  {
    HitsReach(room, id);
    forall c | c in Members(room) && c.clientId == id
      ensures c in Delivered(Hits(room, id))
    {
      if c in room.users.Values {
        var k :| k in room.users && room.users[k] == c;
      } else {
        var k :| k in room.agents && room.agents[k] == c;
      }
    }
  }

  /** In a filed room a selective send reaches exactly the clients whose id
      is listed, users and agents alike, the sender included; unknown ids
      reach no one. */
  lemma {:induction false} TargetedReachesListed(room: Room, to: seq<string>)
    requires Filed(room)
    ensures forall c :: c in Delivered(Targeted(room, to)) <==> c in Members(room) && c.clientId in to
    decreases |to|
  {
    if to != [] {
      TargetedReachesListed(room, to[1..]);
      DeliveredAppend(Hits(room, to[0]), Targeted(room, to[1..]));
      HitsReachNamed(room, to[0]);
      assert forall id :: id in to <==> id == to[0] || id in to[1..] by {
        assert to == [to[0]] + to[1..];
      }
    }
  }

  /** In a well-formed room, audio never reaches a client of the sender's
      own type, nor one that shares the sender's id. */
  lemma AudioCrossesOver(rooms: Rooms, roomId: string, fromId: string, fromType: ClientType, c: Client)
    requires WellFormed(rooms)
    requires c in AudioRecipients(rooms, roomId, fromId, fromType)
    ensures c.clientType != fromType && c.clientId != fromId
    ensures c in Members(rooms[roomId])
  {
    if fromType == User {
      var id :| id in rooms[roomId].agents && rooms[roomId].agents[id] == c;
    } else {
      var id :| id in rooms[roomId].users && rooms[roomId].users[id] == c;
    }
  }

  /** Unfiling a client just filed under a free id gives the room back. */
  lemma UnfileFile(room: Room, client: Client)
    requires client.clientId !in (if client.clientType == Agent then room.agents else room.users)
    ensures Unfile(File(room, client), client) == room
  {
    if client.clientType == Agent {
      assert room.agents[client.clientId := client] - {client.clientId} == room.agents;
    } else {
      assert room.users[client.clientId := client] - {client.clientId} == room.users;
    }
  }

  /** A client that joins a room where its id was free and then leaves
      restores the rooms exactly; a room it created disappears again. */
  lemma JoinThenLeave(rooms: Rooms, roomId: string, client: Client)
    requires WellFormed(rooms)
    requires client.clientId !in (if client.clientType == Agent then RoomOf(rooms, roomId).agents else RoomOf(rooms, roomId).users)
    ensures Left(Joined(rooms, roomId, client), roomId, client) == rooms
  {
    var joined := Joined(rooms, roomId, client);
    var room := RoomOf(rooms, roomId);
    UnfileFile(room, client);
    assert joined[roomId] == File(room, client);
    if roomId in rooms {
      assert room.users != map[] || room.agents != map[];
      RejoinedRoom(rooms, joined, roomId, room);
    } else {
      assert joined - {roomId} == rooms;
    }
  }

  lemma RejoinedRoom(rooms: Rooms, joined: Rooms, roomId: string, room: Room)
    requires roomId in rooms && rooms[roomId] == room
    requires joined.Keys == rooms.Keys
    requires forall q :: q in rooms && q != roomId ==> joined[q] == rooms[q]
    ensures joined[roomId := room] == rooms
  {
  }

  /** Removal goes by id: when an older connection with the same id and
      type disconnects after a newer one replaced it, the newer client drops
      out of the room although it is still connected. */
  lemma LeaveEvictsNamesake(rooms: Rooms, roomId: string, stale: Client, live: Client)
    requires WellFormed(rooms) && roomId in rooms
    requires live.clientId == stale.clientId && live.clientType == stale.clientType
    requires live in Members(rooms[roomId])
    ensures roomId in Left(rooms, roomId, stale) ==> live !in Members(Left(rooms, roomId, stale)[roomId])
  {
    var room := rooms[roomId];
    var r := Left(rooms, roomId, stale);
    if roomId in r {
      var kept := r[roomId];
      assert kept == Unfile(room, stale);
      forall k | k in kept.users
        ensures kept.users[k] != live
      {
        assert k in room.users;
      }
      forall k | k in kept.agents
        ensures kept.agents[k] != live
      {
        assert k in room.agents;
      }
    }
  }

  /** The relay's global room table. */
  class Hub {
    var rooms: Rooms

    ghost predicate Valid()
      reads this
    {
      WellFormed(rooms)
    }

    constructor ()
      ensures Valid() && rooms == map[]
    {
      rooms := map[];
    }

    /** `addClientToRoom`. */
    method AddClientToRoom(roomId: string, client: Client)
      requires Valid()
      modifies this
      ensures Valid()
      ensures rooms == Joined(old(rooms), roomId, client)
    {
      JoinedKeepsWellFormed(rooms, roomId, client);
      // a missing room is created first, with no client in it
      var room := if roomId in rooms then rooms[roomId] else EmptyRoom;
      if client.clientType == Agent {
        room := room.(agents := room.agents[client.clientId := client]);
      } else {
        room := room.(users := room.users[client.clientId := client]);
      }
      rooms := rooms[roomId := room];
    }

    /** `removeClientFromRoom`. */
    method RemoveClientFromRoom(roomId: string, client: Client)
      requires Valid()
      modifies this
      ensures Valid()
      ensures rooms == Left(old(rooms), roomId, client)
    {
      LeftKeepsWellFormed(rooms, roomId, client);
      if roomId !in rooms {
        return;
      }
      var room := rooms[roomId];
      if client.clientType == Agent {
        room := room.(agents := room.agents - {client.clientId});
      } else {
        room := room.(users := room.users - {client.clientId});
      }
      assert room == Unfile(old(rooms)[roomId], client);
      if |room.users| == 0 && |room.agents| == 0 {
        assert room.users == map[] && room.agents == map[];
        rooms := rooms - {roomId};
      } else {
        rooms := rooms[roomId := room];
      }
    }

    /** `handleMessage` for a message from `sender` in room `roomId`: the
        sends it causes, and the sender's metadata after a "metadata"
        message. */
    method HandleMessage(roomId: string, sender: Client, msg: Message) returns (waves: seq<set<Client>>)
      modifies sender
      ensures waves == Dispatch(rooms, roomId, sender, msg)
      ensures sender.metadata == if msg.msgType == "metadata" then Merged(old(sender.metadata), msg.data) else old(sender.metadata)
    {
      if msg.msgType == "metadata" {
        sender.UpdateMetadata(msg.data);
        waves := [];
      } else {
        waves := Dispatch(rooms, roomId, sender, msg);
      }
    }

    /** The start of `handleWebSocket`: a valid query creates the client,
        files it in its room and announces it to the room's other clients
        ("client_joined"). */
    method Connect(roomId: string, clientId: string, clientType: string)
      returns (outcome: QueryOutcome, client: Client?, notified: set<Client>)
      requires Valid()
      modifies this
      ensures Valid()
      ensures outcome == ValidateQuery(roomId, clientId, clientType)
      ensures outcome.Rejected? ==> client == null && rooms == old(rooms) && notified == {}
      ensures outcome.Admitted? ==>
        && client != null && fresh(client)
        && client.room == roomId && client.clientId == clientId && client.clientType == outcome.clientType
        && rooms == Joined(old(rooms), roomId, client)
        && notified == Delivered(Broadcast(rooms, roomId, client))
    {
      outcome := ValidateQuery(roomId, clientId, clientType);
      if outcome.Rejected? {
        return outcome, null, {};
      }
      var c := new Client(roomId, clientId, outcome.clientType);
      AddClientToRoom(roomId, c);
      return outcome, c, Delivered(Broadcast(rooms, roomId, c));
    }

    /** One text frame read from `client`: a frame that is not valid JSON
        (`parsed` is None) is skipped; otherwise `From` and the timestamp
        are overwritten and the message is handled. */
    method OnTextFrame(roomId: string, client: Client, parsed: Option<Message>, now: int)
      returns (routed: Option<Message>, waves: seq<set<Client>>)
      modifies client
      ensures parsed.None? ==> routed == None && waves == [] && client.metadata == old(client.metadata)
      ensures parsed.Some? ==>
        && routed == Some(Stamped(parsed.value, client.clientId, now))
        && waves == Dispatch(rooms, roomId, client, routed.value)
        && client.metadata == if parsed.value.msgType == "metadata" then Merged(old(client.metadata), parsed.value.data) else old(client.metadata)
    {
      if parsed.None? {
        return None, [];
      }
      var msg := parsed.value.(from := client.clientId, timestamp := now);
      waves := HandleMessage(roomId, client, msg);
      routed := Some(msg);
    }

    /** One binary frame read from `client`: the clients it is forwarded to. */
    method OnBinaryFrame(roomId: string, client: Client) returns (recipients: set<Client>)
      ensures recipients == AudioRecipients(rooms, roomId, client.clientId, client.clientType)
      ensures forall c :: c in recipients ==> c.clientId != client.clientId
    {
      recipients := AudioRecipients(rooms, roomId, client.clientId, client.clientType);
    }

    /** The end of `handleWebSocket`: the client is removed and the room's
        remaining clients are told ("client_left"). */
    method Disconnect(roomId: string, client: Client) returns (notified: set<Client>)
      requires Valid()
      modifies this
      ensures Valid()
      ensures rooms == Left(old(rooms), roomId, client)
      ensures notified == Delivered(Broadcast(rooms, roomId, client))
    {
      RemoveClientFromRoom(roomId, client);
      notified := Delivered(Broadcast(rooms, roomId, client));
    }
  }
}

/** The server registry of server/main.go (`handleRegister`,
    `handleAllocate`): relay servers announce their address and port, and
    clients are handed one of them at random. */
module ServerRegistry {
  import opened Common
  import opened HttpStatus

  /** `ServerInfo`. */
  datatype ServerInfo = ServerInfo(address: string, port: int)

  /** No two registered servers share an address and a port. */
  predicate Distinct(servers: seq<ServerInfo>) {
    forall i, j :: 0 <= i < j < |servers| ==> servers[i] != servers[j]
  }

  /** `rnd.Intn(n)` for an arbitrary draw `pick`. */
  function Draw(servers: seq<ServerInfo>, pick: nat): (r: ServerInfo)
    requires servers != []
    ensures r in servers
  {
    servers[pick % |servers|]
  }

  /** Every registered server can be the one allocated. */
  lemma EveryServerCanBeDrawn(servers: seq<ServerInfo>, i: nat)
    requires i < |servers|
    ensures Draw(servers, i) == servers[i]
  {
  }

  /** The global `servers` slice. */
  class Registry {
    var servers: seq<ServerInfo>

    ghost predicate Valid()
      reads this
    {
      Distinct(servers)
    }

    constructor ()
      ensures Valid() && servers == []
    {
      servers := [];
    }

    /** `handleRegister`: `httpMethod` is the request's method and `body`
        its decoded JSON (None when it does not decode). */
    method HandleRegister(httpMethod: string, body: Option<ServerInfo>) returns (status: int)
      requires Valid()
      modifies this
      ensures Valid()
      ensures httpMethod != "POST" ==> status == StatusMethodNotAllowed && servers == old(servers)
      ensures httpMethod == "POST" && body.None? ==> status == StatusBadRequest && servers == old(servers)
      ensures httpMethod == "POST" && body.Some? && body.value in old(servers) ==>
        status == StatusConflict && servers == old(servers)
      ensures httpMethod == "POST" && body.Some? && body.value !in old(servers) ==>
        status == StatusCreated && servers == old(servers) + [body.value]
    {
      if httpMethod != "POST" {
        return StatusMethodNotAllowed;
      }
      if body.None? {
        return StatusBadRequest;
      }
      var newServer := body.value;
      var i := 0;
      while i < |servers|
        invariant 0 <= i <= |servers|
        invariant newServer !in servers[..i]
      {
        if servers[i].address == newServer.address && servers[i].port == newServer.port {
          return StatusConflict;
        }
        assert servers[..i + 1] == servers[..i] + [servers[i]];
        i := i + 1;
      }
      assert servers[..i] == servers;
      servers := servers + [newServer];
      return StatusCreated;
    }

    /** `handleAllocate` with the draw `pick`. */
    method HandleAllocate(pick: nat) returns (status: int, selected: Option<ServerInfo>)
      ensures servers == [] ==> status == StatusServiceUnavailable && selected == None
      ensures servers != [] ==> status == StatusOK && selected == Some(Draw(servers, pick)) && selected.value in servers
    {
      if |servers| == 0 {
        return StatusServiceUnavailable, None;
      }
      return StatusOK, Some(servers[pick % |servers|]);
    }
  }
}
