/** The real-time chat server: the module-level socket.io handle with its
    uninitialised/initialised lifecycle, room naming, and the per-connection
    event handlers, over an abstract table from room name to member sockets. */
module SocketServer {
  import opened Wrappers
  import E = Events

  type SocketId = string
  type Room = string

  /** Name of the personal room of a user. */
  function UserRoom(userId: string): (room: Room) {
    "user_" + userId
  }

  /** Name of the room of a conversation. */
  function ConversationRoom(conversationId: string): (room: Room) {
    "conversation_" + conversationId
  }

  /** Different users get different personal rooms. */
  lemma UserRoomInjective(a: string, b: string)
    requires UserRoom(a) == UserRoom(b)
    ensures a == b
  {
    assert a == UserRoom(a)[5..];
    assert b == UserRoom(b)[5..];
  }

  /** Different conversations get different rooms. */
  lemma ConversationRoomInjective(a: string, b: string)
    requires ConversationRoom(a) == ConversationRoom(b)
    ensures a == b
  {
    assert a == ConversationRoom(a)[13..];
    assert b == ConversationRoom(b)[13..];
  }

  /** No personal room shares its name with a conversation room, whatever the ids. */
  lemma RoomKindsDisjoint(userId: string, conversationId: string)
    ensures UserRoom(userId) != ConversationRoom(conversationId)
  {
    assert UserRoom(userId)[0] == 'u';
    assert ConversationRoom(conversationId)[0] == 'c';
  }

  /** socket.io's room table: which sockets are in which room. A room nobody
      has joined is simply absent. */
  type RoomTable = map<Room, set<SocketId>>

  function Members(t: RoomTable, r: Room): (members: set<SocketId>) {
    if r in t then t[r] else {}
  }

  /** `socket.join(room)`: the socket becomes a member of that room and of no other. */
  function Join(t: RoomTable, r: Room, s: SocketId): (t': RoomTable)
    ensures Members(t', r) == Members(t, r) + {s}
    ensures forall q :: q != r ==> Members(t', q) == Members(t, q)
  {
    t[r := Members(t, r) + {s}]
  }

  /** Joining a user's personal room never changes who receives a conversation's traffic. */
  lemma JoinUserKeepsConversations(t: RoomTable, s: SocketId, userId: string, conversationId: string)
    ensures Members(Join(t, UserRoom(userId), s), ConversationRoom(conversationId))
         == Members(t, ConversationRoom(conversationId))
  {
    RoomKindsDisjoint(userId, conversationId);
  }

  /** Joining one conversation never changes who receives another conversation's traffic. */
  lemma JoinConversationKeepsOthers(t: RoomTable, s: SocketId, c: string, other: string)
    requires c != other
    ensures Members(Join(t, ConversationRoom(c), s), ConversationRoom(other))
         == Members(t, ConversationRoom(other))
  {
    if ConversationRoom(c) == ConversationRoom(other) {
      ConversationRoomInjective(c, other);
    }
  }

  /** One emit: the sockets it reaches and the event they receive. */
  datatype Delivery = Delivery(recipients: set<SocketId>, event: E.ServerEvent)

  /** What a connected socket can receive: an event its client emitted, or
      the close of its transport. */
  datatype Inbound = Emitted(event: E.ClientEvent) | Disconnected

  datatype SocketError = NotInitialized

  /** The HTTP server socket.io is attached to; only its identity matters here. */
  datatype HttpServer = HttpServer(id: nat)

  /** The socket.io server handle. Its room table is the only state the handlers touch. */
  class Io {
    const server: HttpServer
    var rooms: RoomTable

    constructor (server: HttpServer)
      ensures this.server == server && rooms == map[]
    {
      this.server := server;
      rooms := map[];
    }

    /** 'joinUser': the socket joins its user's personal room; no other membership changes. */
    method JoinUser(socket: SocketId, userId: string)
      modifies this
      ensures rooms == Join(old(rooms), UserRoom(userId), socket)
      ensures socket in Members(rooms, UserRoom(userId))
      ensures forall c :: Members(rooms, ConversationRoom(c)) == Members(old(rooms), ConversationRoom(c))
    {
      rooms := Join(rooms, UserRoom(userId), socket);
      forall c ensures Members(rooms, ConversationRoom(c)) == Members(old(rooms), ConversationRoom(c)) {
        JoinUserKeepsConversations(old(rooms), socket, userId, c);
      }
    }

    /** 'joinConversation': the socket joins the conversation's room; no other membership changes. */
    method JoinConversation(socket: SocketId, conversationId: string)
      modifies this
      ensures rooms == Join(old(rooms), ConversationRoom(conversationId), socket)
      ensures socket in Members(rooms, ConversationRoom(conversationId))
      ensures forall u :: Members(rooms, UserRoom(u)) == Members(old(rooms), UserRoom(u))
    {
      rooms := Join(rooms, ConversationRoom(conversationId), socket);
      forall u ensures Members(rooms, UserRoom(u)) == Members(old(rooms), UserRoom(u)) {
        RoomKindsDisjoint(u, conversationId);
      }
    }

    /** 'sendMessage': `io.to(room).emit` reaches every current member of the
        conversation room, the sender included when it has joined, and nobody
        else. There is no membership check: a sender outside the room still
        triggers the broadcast. The payload is passed through unchanged. */
    method SendMessage(socket: SocketId, conversationId: string, message: E.ChatMessage)
      returns (d: Delivery)
      ensures d.recipients == Members(rooms, ConversationRoom(conversationId))
      ensures socket in Members(rooms, ConversationRoom(conversationId)) ==> socket in d.recipients
      ensures d.event == E.NewMessage(conversationId, message)
    {
      var room := ConversationRoom(conversationId);
      d := Delivery(Members(rooms, room), E.NewMessage(conversationId, message));
    }

    /** 'typing': `socket.to(room).emit` reaches every member of the
        conversation room except the sending socket, echoing the user and
        conversation ids. */
    method Typing(socket: SocketId, conversationId: string, userId: string)
      returns (d: Delivery)
      ensures d.recipients == Members(rooms, ConversationRoom(conversationId)) - {socket}
      ensures socket !in d.recipients
      ensures d.event == E.UserTyping(userId, conversationId)
    {
      var room := ConversationRoom(conversationId);
      d := Delivery(Members(rooms, room) - {socket}, E.UserTyping(userId, conversationId));
    }

    /** 'disconnect': the handler only logs, so the room table is left as it is. */
    method Disconnect(socket: SocketId)
      modifies this
      ensures rooms == old(rooms)
    {
    }

    /** Routing of one inbound event to its handler, by event name. */
    method Handle(socket: SocketId, inbound: Inbound) returns (d: Option<Delivery>)
      modifies this
      ensures inbound.Disconnected? ==> d == None && rooms == old(rooms)
      ensures inbound.Emitted? && inbound.event.JoinUser? ==>
                d == None && rooms == Join(old(rooms), UserRoom(inbound.event.userId), socket)
      ensures inbound.Emitted? && inbound.event.JoinConversation? ==>
                d == None && rooms == Join(old(rooms), ConversationRoom(inbound.event.conversationId), socket)
      ensures inbound.Emitted? && inbound.event.SendMessage? ==> rooms == old(rooms) && d == Some(Delivery(
                Members(rooms, ConversationRoom(inbound.event.conversationId)),
                E.NewMessage(inbound.event.conversationId, inbound.event.message)))
      ensures inbound.Emitted? && inbound.event.Typing? ==> rooms == old(rooms) && d == Some(Delivery(
                Members(rooms, ConversationRoom(inbound.event.conversationId)) - {socket},
                E.UserTyping(inbound.event.userId, inbound.event.conversationId)))
    {
      match inbound
      case Disconnected =>
        Disconnect(socket);
        d := None;
      case Emitted(JoinUser(u)) =>
        JoinUser(socket, u);
        d := None;
      case Emitted(JoinConversation(c)) =>
        JoinConversation(socket, c);
        d := None;
      case Emitted(SendMessage(c, m)) =>
        var out := SendMessage(socket, c, m);
        d := Some(out);
      case Emitted(Typing(c, u)) =>
        var out := Typing(socket, c, u);
        d := Some(out);
    }
  }

  /** The module-level `io` variable: null until `initSocket` runs. */
  class SocketModule {
    var io: Io?

    constructor ()
      ensures io == null
    {
      io := null;
    }

    /** `initSocket`: creates a fresh socket.io server on `server`, with no rooms,
        stores it as the module's handle and returns it. */
    method InitSocket(server: HttpServer) returns (r: Io)
      modifies this
      ensures fresh(r) && io == r
      ensures r.server == server && r.rooms == map[]
    {
      r := new Io(server);
      io := r;
    }

    /** `getIO`: throws until `initSocket` has run, then returns the stored handle. */
    method GetIO() returns (r: Result<Io, SocketError>)
      ensures io == null <==> r == Failure(NotInitialized)
      ensures io != null ==> r == Success(io)
    {
      if io == null {
        r := Failure(NotInitialized);
      } else {
        r := Success(io);
      }
    }
  }

  /** The lifecycle end to end: before `initSocket` the handle is unavailable,
      afterwards `getIO` returns the very object `initSocket` returned. */
  method LifecycleScenario(server: HttpServer) returns (before: bool, same: bool)
    ensures !before && same
  {
    var m := new SocketModule();
    var r0 := m.GetIO();
    before := r0.Success?;
    var io := m.InitSocket(server);
    var r1 := m.GetIO();
    same := r1 == Success(io);
  }
}
