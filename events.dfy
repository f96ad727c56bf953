/** The socket event gateway: the handshake that authenticates a socket
    and joins it to its rooms, the registry of connected sockets, and the
    notifications the services push to rooms. */
module Events {
  import opened Common
  import opened Strings
  import JsValue

  // ---------------------------------------------------------------------
  // Rooms

  /** The broadcast rooms a socket can join. */
  datatype Room = User(sub: string) | Client(id: string) | Admins

  /** The room's name as the transport knows it. */
  function RoomName(r: Room): string {
    match r
    case User(sub) => "user:" + sub
    case Client(id) => "client:" + id
    case Admins => "admins"
  }

  /** Reads a room name back. */
  function ParseRoom(name: string): Option<Room> {
    if |name| >= 5 && name[..5] == "user:" then Some(User(name[5..]))
    else if |name| >= 7 && name[..7] == "client:" then Some(Client(name[7..]))
    else if name == "admins" then Some(Admins)
    else None
  }

  lemma ParseRoomName(r: Room)
    ensures ParseRoom(RoomName(r)) == Some(r)
  {
    var name := RoomName(r);
    match r
    case User(sub) =>
      assert name[..5] == "user:";
      assert name[5..] == sub;
    case Client(id) =>
      assert name[..5] != "user:" by { assert name[0] == 'c'; }
      assert name[..7] == "client:";
      assert name[7..] == id;
    case Admins =>
      assert name[..5] != "user:" by { assert name[0] == 'a'; }
  }

  /** Distinct rooms have distinct names, so joining and emitting by name
      never confuses two rooms. */
  lemma RoomNameInjective(a: Room, b: Room)
    ensures RoomName(a) == RoomName(b) <==> a == b
  {
    ParseRoomName(a);
    ParseRoomName(b);
  }

  // ---------------------------------------------------------------------
  // Token payload, registry entries and event payloads

  /** The verified token's payload: `sub`, and the optional `email`,
      `clientId` and `role`. */
  datatype JwtPayload = JwtPayload(
    sub: string,
    email: Option<string>,
    clientId: Option<string>,
    role: Option<string>)

  /** The socket as the gateway sees it: its id and handshake fields, the
      rooms it has joined and whether it is still connected. */
  class Socket {
    const id: string
    const authToken: Option<string>       // handshake.auth.token
    const authorization: Option<string>   // handshake.headers.authorization
    var rooms: set<string>
    var connected: bool

    constructor (id: string, authToken: Option<string>, authorization: Option<string>)
      ensures this.id == id && this.authToken == authToken && this.authorization == authorization
      ensures rooms == {} && connected
    {
      this.id := id;
      this.authToken := authToken;
      this.authorization := authorization;
      rooms := {};
      connected := true;
    }

    /** `socket.join(room)`: a connected socket joins the room; a
        disconnected one joins nothing. */
    method Join(room: string)
      modifies this
      ensures rooms == if old(connected) then old(rooms) + {room} else old(rooms)
      ensures connected == old(connected)
    {
      if connected {
        rooms := rooms + {room};
      }
    }

    /** `socket.disconnect()`: the socket leaves every room it was in. */
    method Disconnect()
      modifies this
      ensures !connected
      ensures rooms == {}
    {
      connected := false;
      rooms := {};
    }
  }

  /** An entry of the registry of connected sockets. */
  datatype ConnectedClient = ConnectedClient(
    socket: Socket,
    userId: string,
    clientId: Option<string>)

  /** The product fields a service sends (`{id, name, price, clientId}`). */
  datatype ProductEvent = ProductEvent(
    id: string,
    name: JsValue.Value,
    price: JsValue.Value,
    clientId: Option<string>)

  datatype SupplierEvent = SupplierEvent(
    id: string,
    name: Option<string>,
    kind: Option<string>,
    apiUrl: Option<string>,
    isActive: Option<bool>)

  datatype ClientEvent = ClientEvent(
    id: string,
    name: Option<string>,
    domain: Option<string>,
    logo: Option<string>,
    primaryColor: Option<string>,
    secondaryColor: Option<string>,
    isActive: Option<bool>)

  /** The `data` of an event. */
  datatype Payload =
    | ProductData(product: ProductEvent)
    | SupplierData(supplier: SupplierEvent)
    | ClientData(client: ClientEvent)
    | Branding(name: Option<string>, domain: Option<string>, logo: Option<string>,
               primaryColor: Option<string>, secondaryColor: Option<string>)
    | IdOnly(id: string)

  /** `{message, data}`. */
  datatype EventData = EventData(message: string, data: Payload)

  /** One `server.to(room).emit(event, body)`. */
  datatype Emission = Emission(room: Room, event: string, body: EventData)

  /** The rooms a sequence of emissions goes to. */
  function Rooms(es: seq<Emission>): set<Room> {
    set e | e in es :: e.room
  }

  /** The `client:` room of an optional client id, when it is truthy. */
  function ClientRoomOf(clientId: Option<string>): set<Room> {
    if Truthy(clientId) then {Client(clientId.value)} else {}
  }

  // ---------------------------------------------------------------------
  // Handshake

  /** The token of a handshake: `auth.token` when truthy, otherwise the
      second space-separated word of the Authorization header; an empty
      result counts as no token. */
  function ExtractToken(authToken: Option<string>, authorization: Option<string>): (r: Option<string>)
    ensures r.Some? ==> r.value != ""
    ensures Truthy(authToken) ==> r == authToken
    ensures !Truthy(authToken) && (authorization.None? || ' ' !in authorization.value) ==> r.None?
    ensures !Truthy(authToken) && r.Some? ==> ' ' !in r.value
  {
    if Truthy(authToken) then authToken
    else if authorization.None? then None
    else
      var parts := Split(authorization.value, ' ');
      if |parts| >= 2 && parts[1] != "" then Some(parts[1]) else None
  }

  /** A token taken from the header is the text after its first space, up
      to the next space or the end. */
  lemma HeaderTokenShape(authToken: Option<string>, h: string)
    requires !Truthy(authToken) && ExtractToken(authToken, Some(h)).Some?
    ensures IndexOf(h, ' ').Some?
    ensures var i := IndexOf(h, ' ').value;
            var t := ExtractToken(authToken, Some(h)).value;
            && i + 1 + |t| <= |h|
            && h[i + 1..i + 1 + |t|] == t
            && (i + 1 + |t| == |h| || h[i + 1 + |t|] == ' ')
  {
    SecondPieceShape(h, ' ');
  }

  /** `authorization.split(' ')[1]` whatever the scheme and whatever
      follows the token: in `<scheme> <token>` followed by nothing or by
      further space-separated words, the header yields the token unless
      `auth.token` is set, which wins. */
  lemma HeaderToken(authToken: Option<string>, scheme: string, token: string, rest: string)
    requires ' ' !in scheme && token != "" && ' ' !in token
    requires rest == "" || rest[0] == ' '
    ensures ExtractToken(authToken, Some(scheme + " " + token + rest))
            == if Truthy(authToken) then authToken else Some(token)
  {
    var h := scheme + " " + token + rest;
    assert h == scheme + [' '] + (token + rest);
    SplitAtFirst(scheme, ' ', token + rest);
    FirstPieceOfPrefix(token, ' ', rest);
    assert Split(h, ' ')[1] == Split(token + rest, ' ')[0] == token;
  }

  /** `Authorization: Bearer <token>` yields the token unless `auth.token`
      is set, which wins. */
  lemma BearerToken(authToken: Option<string>, token: string)
    requires token != "" && ' ' !in token
    ensures ExtractToken(authToken, Some("Bearer " + token))
            == if Truthy(authToken) then authToken else Some(token)
  {
    assert "Bearer" + " " == "Bearer ";
    assert "Bearer" + " " + token + "" == "Bearer " + token;
    HeaderToken(authToken, "Bearer", token, "");
  }

  /** The verified payload of a handshake, or None when it has no token or
      the token does not verify (`verify` stands for `JwtService.verify`,
      None for a throw). */
  function Authenticate(authToken: Option<string>, authorization: Option<string>,
                        verify: string -> Option<JwtPayload>): Option<JwtPayload>
  {
    match ExtractToken(authToken, authorization)
    case None => None
    case Some(token) => verify(token)
  }

  /** The rooms an authenticated socket joins, in join order. */
  function RoomsToJoin(p: JwtPayload): (rooms: seq<Room>)
    ensures User(p.sub) in rooms
    ensures forall sub :: User(sub) in rooms ==> sub == p.sub
    ensures forall id :: Client(id) in rooms <==> Truthy(p.clientId) && id == p.clientId.value
    ensures Admins in rooms <==> p.role == Some("admin")
  {
    [User(p.sub)]
    + (if Truthy(p.clientId) then [Client(p.clientId.value)] else [])
    + (if p.role == Some("admin") then [Admins] else [])
  }

  function RoomNames(rooms: seq<Room>): set<string> {
    set r | r in rooms :: RoomName(r)
  }

  /** A socket ends up in a `client:` room only for the client id its token
      carries, and in `admins` only when its token says `role: "admin"`. */
  lemma JoinedRoomsAreAuthorized(p: JwtPayload, r: Room)
    requires RoomName(r) in RoomNames(RoomsToJoin(p))
    ensures r.Client? ==> p.clientId == Some(r.id) && r.id != ""
    ensures r.Admins? ==> p.role == Some("admin")
    ensures r.User? ==> r.sub == p.sub
  {
    var q :| q in RoomsToJoin(p) && RoomName(q) == RoomName(r);
    RoomNameInjective(q, r);
  }

  /** The connection registry: connected sockets by socket id. */
  class Gateway {
    var clients: map<string, ConnectedClient>

    /** Every entry is keyed by its own socket's id. */
    ghost predicate Valid()
      reads this
    {
      forall k :: k in clients ==> clients[k].socket.id == k
    }

    constructor ()
      ensures Valid() && clients == map[]
    {
      clients := map[];
    }

    /** `handleConnection`: without a token, or with one that does not
        verify, the socket is disconnected, leaving every room, and the
        registry is unchanged; otherwise the socket is registered under its
        id and, while it is connected, joins its rooms. */
    method HandleConnection(client: Socket, verify: string -> Option<JwtPayload>)
      requires Valid()
      modifies this, client
      ensures Valid()
      ensures var auth := Authenticate(client.authToken, client.authorization, verify);
        && (auth.None? ==>
              clients == old(clients) && !client.connected && client.rooms == {})
        && (auth.Some? ==>
              && clients == old(clients)[client.id := ConnectedClient(client, auth.value.sub, auth.value.clientId)]
              && client.rooms == (if old(client.connected)
                                  then old(client.rooms) + RoomNames(RoomsToJoin(auth.value))
                                  else old(client.rooms))
              && client.connected == old(client.connected))
    {
      var token := ExtractToken(client.authToken, client.authorization);
      if token.None? {
        client.Disconnect();
        return;
      }
      var verified := verify(token.value);
      if verified.None? {
        client.Disconnect();
        return;
      }
      var payload := verified.value;
      clients := clients[client.id := ConnectedClient(client, payload.sub, payload.clientId)];
      client.Join(RoomName(User(payload.sub)));
      if Truthy(payload.clientId) {
        client.Join(RoomName(Client(payload.clientId.value)));
      }
      if payload.role == Some("admin") {
        client.Join(RoomName(Admins));
      }
      assert old(client.connected) ==> client.rooms == old(client.rooms) + RoomNames(RoomsToJoin(payload));
    }

    /** `handleDisconnect`: forgets that socket id, and only it; an unknown
        id leaves the registry as it was. */
    method HandleDisconnect(client: Socket)
      requires Valid()
      modifies this
      ensures Valid()
      ensures clients == old(clients) - {client.id}
      ensures client.id !in old(clients) ==> clients == old(clients)
    {
      clients := clients - {client.id};
    }
  }

  // ---------------------------------------------------------------------
  // Notifications

  const NewProductMessage := "Novo produto criado"
  const ProductAvailableMessage := "Novo produto disponível"
  const ProductRemovedMessage := "Produto removido"
  const ProductGoneMessage := "Produto não está mais disponível"

  function NotifySupplierCreated(supplier: SupplierEvent): (es: seq<Emission>)
    ensures Rooms(es) == {Admins} && |es| == 1
    ensures forall e :: e in es ==> e.event == "supplier:created" && e.body.data == SupplierData(supplier)
  {
    [Emission(Admins, "supplier:created", EventData("Novo fornecedor criado", SupplierData(supplier)))]
  }

  function NotifySupplierUpdated(supplier: SupplierEvent): (es: seq<Emission>)
    ensures Rooms(es) == {Admins} && |es| == 1
    ensures forall e :: e in es ==> e.event == "supplier:updated" && e.body.data == SupplierData(supplier)
  {
    [Emission(Admins, "supplier:updated", EventData("Fornecedor atualizado", SupplierData(supplier)))]
  }

  function NotifySupplierRemoved(supplierId: string): (es: seq<Emission>)
    ensures Rooms(es) == {Admins} && |es| == 1
    ensures forall e :: e in es ==> e.event == "supplier:removed" && e.body.data == IdOnly(supplierId)
  {
    [Emission(Admins, "supplier:removed", EventData("Fornecedor removido", IdOnly(supplierId)))]
  }

  function NotifyProductCreated(product: ProductEvent): (es: seq<Emission>)
    ensures Rooms(es) == {Admins} + ClientRoomOf(product.clientId)
    ensures |es| == |Rooms(es)|
    ensures forall e :: e in es ==> e.event == "product:created" && e.body.data == ProductData(product)
    ensures forall e :: e in es ==>
      e.body.message == if e.room.Admins? then NewProductMessage else ProductAvailableMessage
  {
    var toAdmins := Emission(Admins, "product:created", EventData(NewProductMessage, ProductData(product)));
    if Truthy(product.clientId) then
      var toStore := Emission(Client(product.clientId.value), "product:created",
                              EventData(ProductAvailableMessage, ProductData(product)));
      assert Rooms([toAdmins, toStore]) == {Admins, Client(product.clientId.value)};
      [toAdmins, toStore]
    else
      [toAdmins]
  }

  function NotifyProductUpdated(product: ProductEvent): (es: seq<Emission>)
    ensures Rooms(es) == {Admins} + ClientRoomOf(product.clientId)
    ensures |es| == |Rooms(es)|
    ensures forall e :: e in es ==>
      && e.event == "product:updated" && e.body.data == ProductData(product)
      && e.body.message == "Produto atualizado"
  {
    var toAdmins := Emission(Admins, "product:updated", EventData("Produto atualizado", ProductData(product)));
    if Truthy(product.clientId) then
      var toStore := Emission(Client(product.clientId.value), "product:updated",
                              EventData("Produto atualizado", ProductData(product)));
      assert Rooms([toAdmins, toStore]) == {Admins, Client(product.clientId.value)};
      [toAdmins, toStore]
    else
      [toAdmins]
  }

  function NotifyProductRemoved(productId: string, clientId: Option<string>): (es: seq<Emission>)
    ensures Rooms(es) == {Admins} + ClientRoomOf(clientId)
    ensures |es| == |Rooms(es)|
    ensures forall e :: e in es ==> e.event == "product:removed" && e.body.data == IdOnly(productId)
    ensures forall e :: e in es ==>
      e.body.message == if e.room.Admins? then ProductRemovedMessage else ProductGoneMessage
  {
    var toAdmins := Emission(Admins, "product:removed", EventData(ProductRemovedMessage, IdOnly(productId)));
    if Truthy(clientId) then
      var toStore := Emission(Client(clientId.value), "product:removed",
                              EventData(ProductGoneMessage, IdOnly(productId)));
      assert Rooms([toAdmins, toStore]) == {Admins, Client(clientId.value)};
      [toAdmins, toStore]
    else
      [toAdmins]
  }

  function NotifyClientCreated(client: ClientEvent): (es: seq<Emission>)
    ensures Rooms(es) == {Admins} && |es| == 1
    ensures forall e :: e in es ==> e.event == "client:created" && e.body.data == ClientData(client)
  {
    [Emission(Admins, "client:created", EventData("Nova loja criada", ClientData(client)))]
  }

  /** The store's own room receives only its branding fields. */
  function BrandingOf(client: ClientEvent): Payload {
    Branding(client.name, client.domain, client.logo, client.primaryColor, client.secondaryColor)
  }

  function NotifyClientUpdated(client: ClientEvent): (es: seq<Emission>)
    ensures Rooms(es) == {Admins, Client(client.id)} && |es| == 2
    ensures forall e :: e in es ==> e.event == "client:updated"
    ensures forall e :: e in es ==>
      e.body.data == if e.room.Admins? then ClientData(client) else BrandingOf(client)
  {
    var toAdmins := Emission(Admins, "client:updated", EventData("Loja atualizada", ClientData(client)));
    var toStore := Emission(Client(client.id), "client:updated",
                            EventData("Configurações da loja foram atualizadas", BrandingOf(client)));
    assert Rooms([toAdmins, toStore]) == {Admins, Client(client.id)};
    [toAdmins, toStore]
  }

  function NotifyClientRemoved(clientId: string): (es: seq<Emission>)
    ensures Rooms(es) == {Admins} && |es| == 1
    ensures forall e :: e in es ==> e.event == "client:removed" && e.body.data == IdOnly(clientId)
  {
    [Emission(Admins, "client:removed", EventData("Loja removida", IdOnly(clientId)))]
  }

  // ---------------------------------------------------------------------
  // Properties of the notification API as a whole

  /** One call of a `notify*` method. */
  datatype Notice =
    | SupplierCreated(supplier: SupplierEvent)
    | SupplierUpdated(supplier: SupplierEvent)
    | SupplierRemoved(supplierId: string)
    | ProductCreated(product: ProductEvent)
    | ProductUpdated(product: ProductEvent)
    | ProductRemoved(productId: string, clientId: Option<string>)
    | ClientCreated(client: ClientEvent)
    | ClientUpdated(client: ClientEvent)
    | ClientRemoved(removedId: string)

  function Emit(n: Notice): seq<Emission> {
    match n
    case SupplierCreated(s) => NotifySupplierCreated(s)
    case SupplierUpdated(s) => NotifySupplierUpdated(s)
    case SupplierRemoved(id) => NotifySupplierRemoved(id)
    case ProductCreated(p) => NotifyProductCreated(p)
    case ProductUpdated(p) => NotifyProductUpdated(p)
    case ProductRemoved(id, c) => NotifyProductRemoved(id, c)
    case ClientCreated(c) => NotifyClientCreated(c)
    case ClientUpdated(c) => NotifyClientUpdated(c)
    case ClientRemoved(id) => NotifyClientRemoved(id)
  }

  /** The store a notice is about, if any: a product's store, the store
      passed with a product removal, the store itself for store notices;
      suppliers belong to no store. */
  function Tenant(n: Notice): Option<string> {
    match n
    case SupplierCreated(_) => None
    case SupplierUpdated(_) => None
    case SupplierRemoved(_) => None
    case ProductCreated(p) => p.clientId
    case ProductUpdated(p) => p.clientId
    case ProductRemoved(_, c) => c
    case ClientCreated(c) => Some(c.id)
    case ClientUpdated(c) => Some(c.id)
    case ClientRemoved(id) => Some(id)
  }

  /** The event name every copy of a notice is emitted under. */
  function EventName(n: Notice): string {
    match n
    case SupplierCreated(_) => "supplier:created"
    case SupplierUpdated(_) => "supplier:updated"
    case SupplierRemoved(_) => "supplier:removed"
    case ProductCreated(_) => "product:created"
    case ProductUpdated(_) => "product:updated"
    case ProductRemoved(_, _) => "product:removed"
    case ClientCreated(_) => "client:created"
    case ClientUpdated(_) => "client:updated"
    case ClientRemoved(_) => "client:removed"
  }

  /** Tenant isolation: a `client:<id>` room only hears about store `id`. */
  lemma TenantIsolation(n: Notice)
    ensures forall r :: r in Rooms(Emit(n)) && r.Client? ==> Tenant(n) == Some(r.id)
  {
    match n
    case SupplierCreated(_) =>
    case SupplierUpdated(_) =>
    case SupplierRemoved(_) =>
    case ProductCreated(_) =>
    case ProductUpdated(_) =>
    case ProductRemoved(_, _) =>
    case ClientCreated(_) =>
    case ClientUpdated(_) =>
    case ClientRemoved(_) =>
  }

  /** No notice goes to a `user:` room. */
  lemma NoUserRoomNotified(n: Notice)
    ensures forall r :: r in Rooms(Emit(n)) ==> !r.User?
  {
    match n
    case SupplierCreated(_) =>
    case SupplierUpdated(_) =>
    case SupplierRemoved(_) =>
    case ProductCreated(_) =>
    case ProductUpdated(_) =>
    case ProductRemoved(_, _) =>
    case ClientCreated(_) =>
    case ClientUpdated(_) =>
    case ClientRemoved(_) =>
  }

  /** `admins` hears every notice, and no room hears a notice twice. */
  lemma AdminsHearEveryNoticeOnce(n: Notice)
    ensures Admins in Rooms(Emit(n))
    ensures |Emit(n)| == |Rooms(Emit(n))|
  {
    match n
    case SupplierCreated(_) =>
    case SupplierUpdated(_) =>
    case SupplierRemoved(_) =>
    case ProductCreated(_) =>
    case ProductUpdated(_) =>
    case ProductRemoved(_, _) =>
    case ClientCreated(_) =>
    case ClientUpdated(_) =>
    case ClientRemoved(_) =>
  }

  /** Every copy of a notice carries the notice's event name. */
  lemma OneEventNamePerNotice(n: Notice)
    ensures forall e :: e in Emit(n) ==> e.event == EventName(n)
  {
    match n
    case SupplierCreated(_) =>
    case SupplierUpdated(_) =>
    case SupplierRemoved(_) =>
    case ProductCreated(_) =>
    case ProductUpdated(_) =>
    case ProductRemoved(_, _) =>
    case ClientCreated(_) =>
    case ClientUpdated(_) =>
    case ClientRemoved(_) =>
  }

  /** A store room never receives a supplier record or a store's full
      record, only product data, ids and branding. */
  lemma TenantRoomsGetReducedData(n: Notice, e: Emission)
    requires e in Emit(n) && e.room.Client?
    ensures e.body.data.ProductData? || e.body.data.IdOnly? || e.body.data.Branding?
    ensures e.body.data.ProductData? ==> e.body.data.product.clientId == Some(e.room.id)
  {
  }

  predicate IsRemoval(n: Notice) {
    n.SupplierRemoved? || n.ProductRemoved? || n.ClientRemoved?
  }

  function RemovedId(n: Notice): string
    requires IsRemoval(n)
  {
    match n
    case SupplierRemoved(id) => id
    case ProductRemoved(id, _) => id
    case ClientRemoved(id) => id
  }

  /** Every `*:removed` emission carries only the removed id. */
  lemma RemovalCarriesOnlyId(n: Notice)
    requires IsRemoval(n)
    ensures forall e :: e in Emit(n) ==> e.body.data == IdOnly(RemovedId(n))
  {
  }

  /** A socket receives an emission exactly when it has joined the
      emission's room by name. */
  predicate Reaches(e: Emission, joined: set<string>) {
    RoomName(e.room) in joined
  }

  /** Combining the handshake with the fan-out: a socket whose token carries
      no truthy client id never receives a store's emission, and a socket
      whose token lacks `role: "admin"` never receives an `admins` one. */
  lemma HandshakeBoundsAudience(p: JwtPayload, n: Notice, e: Emission)
    requires e in Emit(n) && Reaches(e, RoomNames(RoomsToJoin(p)))
    ensures e.room.Admins? ==> p.role == Some("admin")
    ensures e.room.Client? ==> Truthy(p.clientId) && Tenant(n) == p.clientId
  {
    TenantIsolation(n);
    NoUserRoomNotified(n);
    JoinedRoomsAreAuthorized(p, e.room);
  }
}
