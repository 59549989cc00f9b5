/** The room relay: it pairs one Buyer and one Seller per session and forwards their packets. First
    the server as a function of its events, with what holds after any of them; then the server itself,
    whose rooms and clients share mutable client objects. */
module Relay {
  import opened Pricing

  type Socket = nat

  const MAX_SAFE_INTEGER: nat := 9_007_199_254_740_991

  datatype Registration = Registration(role: Role, token: nat, session: nat, productCode: nat, publicKey: nat)

  datatype Packet = Packet(
    session: nat, productCode: nat, sender: Role, target: Role, sequence: int, nonce: nat, sealed: nat)

  datatype ErrorCode =
    AuthFailed | InvalidFrame | RoomMismatch | RoleConflict | PeerUnavailable | ReplayRejected | NonceReused

  datatype Message =
    | Error(code: ErrorCode)
    | PeerKey(session: nat, productCode: nat, role: Role, publicKey: nat)
    | Forward(packet: Packet)

  datatype Delivery = Delivery(to: Socket, message: Message)

  /** A frame once it is read: a registration, a packet, or something that does not parse. */
  datatype Frame = Registers(registration: Registration) | Sends(packet: Packet) | Unreadable

  datatype Event = Arrives(socket: Socket, frame: Frame) | Oversized(socket: Socket) | Closes(socket: Socket)

  datatype Tokens = Tokens(buyer: nat, seller: nat)

  function Expected(tokens: Tokens, role: Role): nat {
    if role.Buyer? then tokens.buyer else tokens.seller
  }

  predicate Parses(p: Packet) {
    p.sender != p.target && 1 <= p.sequence <= MAX_SAFE_INTEGER
  }

  // ---- The server as a value ----

  /** `serial` tells registrations apart, also when a socket number or a session is used again. */
  datatype Client = Client(serial: nat, registration: Registration, lastSequence: int, seenNonces: set<nat>)

  /** At most one client for each role. */
  datatype Room<+C> = Room(productCode: nat, buyer: Option<C>, seller: Option<C>)

  function At<C>(room: Room<C>, role: Role): Option<C> {
    if role.Buyer? then room.buyer else room.seller
  }

  function Put<C>(room: Room<C>, role: Role, client: Option<C>): Room<C> {
    if role.Buyer? then room.(buyer := client) else room.(seller := client)
  }

  predicate Empty<C>(room: Room<C>) {
    room.buyer.None? && room.seller.None?
  }

  /** A forwarded packet, with the registrations it came from and went to; `written` unless the
      target's socket is already destroyed. */
  datatype Hop = Hop(serial: nat, source: Registration, target: Registration, to: Socket, packet: Packet, written: bool)

  datatype Server = Server(
    rooms: map<nat, Room<Socket>>, clients: map<Socket, Client>, destroyed: set<Socket>, sent: seq<Delivery>,
    hops: seq<Hop>, issued: nat)

  const IDLE := Server(map[], map[], {}, [], [], 0)

  function Send(s: Server, to: Socket, message: Message): Server {
    if to in s.destroyed then s else s.(sent := s.sent + [Delivery(to, message)])
  }

  function Reject(s: Server, socket: Socket, code: ErrorCode): Server {
    Send(s, socket, Error(code))
  }

  function RejectAndDestroy(s: Server, socket: Socket, code: ErrorCode): Server {
    var t := Reject(s, socket, code);
    t.(destroyed := t.destroyed + {socket})
  }

  function RoomFor(s: Server, r: Registration): Room<Socket> {
    if r.session in s.rooms then s.rooms[r.session] else Room(r.productCode, None, None)
  }

  function Admit(s: Server, socket: Socket, r: Registration): Server {
    s.(rooms := s.rooms[r.session := Put(RoomFor(s, r), r.role, Some(socket))],
       clients := s.clients[socket := Client(s.issued, r, 0, {})],
       issued := s.issued + 1)
  }

  function KeyOf(r: Registration): Message {
    PeerKey(r.session, r.productCode, r.role, r.publicKey)
  }

  /** Both parties of a full room get the other's key. */
  function Introduce(s: Server, socket: Socket, r: Registration, peer: Socket): Server
    requires peer in s.clients
  {
    var key := PeerKey(r.session, r.productCode, Opposite(r.role), s.clients[peer].registration.publicKey);
    Send(Send(s, socket, key), peer, KeyOf(r))
  }

  function Register(tokens: Tokens, s: Server, socket: Socket, r: Registration): Server {
    if socket in s.clients || Expected(tokens, r.role) != r.token then RejectAndDestroy(s, socket, AuthFailed)
    else
      var room := RoomFor(s, r);
      if room.productCode != r.productCode then RejectAndDestroy(s, socket, RoomMismatch)
      else if At(room, r.role).Some? then RejectAndDestroy(s, socket, RoleConflict)
      else
        var t, peer := Admit(s, socket, r), At(room, Opposite(r.role));
        if peer.Some? && peer.value in s.clients then Introduce(t, socket, r, peer.value) else t
  }

  function HopTo(s: Server, client: Client, to: Socket, p: Packet): Hop
    requires to in s.clients
  {
    Hop(client.serial, client.registration, s.clients[to].registration, to, p, to !in s.destroyed)
  }

  predicate Sender(s: Server, socket: Socket, p: Packet) {
    && socket in s.clients
    && var r := s.clients[socket].registration;
       r.role == p.sender && r.session == p.session && r.productCode == p.productCode
  }

  predicate TargetPresent(s: Server, p: Packet) {
    && p.session in s.rooms && At(s.rooms[p.session], p.target).Some?
    && At(s.rooms[p.session], p.target).value in s.clients
  }

  function RoutePacket(s: Server, socket: Socket, p: Packet): Server {
    if !Sender(s, socket, p) then Reject(s, socket, RoomMismatch)
    else
      var client := s.clients[socket];
      if p.sequence <= client.lastSequence then Reject(s, socket, ReplayRejected)
      else if p.nonce in client.seenNonces then Reject(s, socket, NonceReused)
      else if !TargetPresent(s, p) then Reject(s, socket, PeerUnavailable)
      else
        var to := At(s.rooms[p.session], p.target).value;
        var moved := client.(lastSequence := p.sequence, seenNonces := client.seenNonces + {p.nonce});
        Send(s.(clients := s.clients[socket := moved],
                hops := s.hops + [HopTo(s, client, to, p)]),
             to, Forward(p))
  }

  /** A room that nobody is in is dropped. */
  function WithRoom<C>(rooms: map<nat, Room<C>>, session: nat, room: Room<C>): map<nat, Room<C>> {
    if Empty(room) then rooms - {session} else rooms[session := room]
  }

  function Close(s: Server, socket: Socket): Server {
    if socket !in s.clients then s
    else
      var r := s.clients[socket].registration;
      var t := s.(clients := s.clients - {socket});
      if r.session !in s.rooms then t
      else
        var left := Put(s.rooms[r.session], r.role, None);
        t.(rooms := WithRoom(s.rooms, r.session, left))
  }

  function Handle(tokens: Tokens, s: Server, e: Event): Server {
    match e
    case Arrives(socket, Registers(r)) => Register(tokens, s, socket, r)
    case Arrives(socket, Sends(p)) => if Parses(p) then RoutePacket(s, socket, p) else Reject(s, socket, InvalidFrame)
    case Arrives(socket, Unreadable) => Reject(s, socket, InvalidFrame)
    case Oversized(socket) => RejectAndDestroy(s, socket, InvalidFrame)
    case Closes(socket) => Close(s, socket)
  }

  function Serve(tokens: Tokens, events: seq<Event>): Server {
    if events == [] then IDLE else Handle(tokens, Serve(tokens, events[..|events| - 1]), events[|events| - 1])
  }

  // ---- The invariant ----

  /** An authenticated client stands in its session's room under its role. */
  predicate HasPlace(tokens: Tokens, s: Server, socket: Socket)
    requires socket in s.clients
  {
    var r := s.clients[socket].registration;
    && r.token == Expected(tokens, r.role)
    && r.session in s.rooms && s.rooms[r.session].productCode == r.productCode
    && At(s.rooms[r.session], r.role) == Some(socket)
  }

  predicate Occupied(s: Server, session: nat, role: Role)
    requires session in s.rooms && At(s.rooms[session], role).Some?
  {
    var socket := At(s.rooms[session], role).value;
    socket in s.clients && s.clients[socket].registration.session == session &&
      s.clients[socket].registration.role == role
  }

  /** Rooms and clients describe the same registrations: every client has its place, every place in a
      room is such a client, and no room is empty. */
  predicate Consistent(tokens: Tokens, s: Server) {
    && (forall socket <- s.clients :: HasPlace(tokens, s, socket))
    && (forall session <- s.rooms :: !Empty(s.rooms[session]))
    && (forall session, role :: session in s.rooms && At(s.rooms[session], role).Some? ==> Occupied(s, session, role))
  }

  /** A packet went from its sender to the opposite role of the same session. */
  predicate ProperHop(tokens: Tokens, h: Hop) {
    && h.source.session == h.target.session == h.packet.session
    && h.source.productCode == h.target.productCode == h.packet.productCode
    && h.source.role == h.packet.sender && h.target.role == h.packet.target == Opposite(h.packet.sender)
    && h.source.token == Expected(tokens, h.source.role) && h.target.token == Expected(tokens, h.target.role)
  }

  /** Packets of one registration go out in increasing order, each nonce once. */
  predicate InOrder(hops: seq<Hop>) {
    forall i, j :: 0 <= i < j < |hops| && hops[i].serial == hops[j].serial ==>
      hops[i].source == hops[j].source && hops[i].packet.sequence < hops[j].packet.sequence &&
        hops[i].packet.nonce != hops[j].packet.nonce
  }

  /** A client remembers what was forwarded for it. */
  predicate Remembers(s: Server) {
    && (forall socket <- s.clients :: s.clients[socket].serial < s.issued)
    && (forall a, b :: a in s.clients && b in s.clients && a != b ==> s.clients[a].serial != s.clients[b].serial)
    && (forall h <- s.hops :: h.serial < s.issued)
    && (forall socket <- s.clients, h <- s.hops :: h.serial == s.clients[socket].serial ==>
          && h.source == s.clients[socket].registration
          && h.packet.sequence <= s.clients[socket].lastSequence && h.packet.nonce in s.clients[socket].seenNonces)
  }

  /** The packets on the wire. */
  function Wire(sent: seq<Delivery>): seq<(Socket, Packet)> {
    if sent == [] then [] else
      var (init, d) := (Wire(sent[..|sent| - 1]), sent[|sent| - 1]);
      if d.message.Forward? then init + [(d.to, d.message.packet)] else init
  }

  function Written(hops: seq<Hop>): seq<(Socket, Packet)> {
    if hops == [] then [] else
      var (init, h) := (Written(hops[..|hops| - 1]), hops[|hops| - 1]);
      if h.written then init + [(h.to, h.packet)] else init
  }

  /** The packets forwarded so far. */
  predicate Forwarded(tokens: Tokens, s: Server) {
    Remembers(s) && InOrder(s.hops) && forall h <- s.hops :: ProperHop(tokens, h)
  }

  predicate Inv(tokens: Tokens, s: Server) {
    Consistent(tokens, s) && Forwarded(tokens, s)
  }

  lemma SendKeeps(tokens: Tokens, s: Server, to: Socket, message: Message)
    requires Inv(tokens, s)
    ensures Inv(tokens, Send(s, to, message))
  {
    SameInv(tokens, s, Send(s, to, message));
  }

  /** The invariant does not speak of deliveries. */
  lemma SameInv(tokens: Tokens, s: Server, t: Server)
    requires Inv(tokens, s) && t == s.(sent := t.sent, destroyed := t.destroyed)
    ensures Inv(tokens, t)
  {
    hide InOrder;
    hide ProperHop;
    forall socket | socket in t.clients ensures HasPlace(tokens, t, socket) { assert HasPlace(tokens, s, socket); }
    forall session, role | session in t.rooms && At(t.rooms[session], role).Some? ensures Occupied(t, session, role) {
      assert Occupied(s, session, role);
    }
  }

  lemma AdmitKeeps(tokens: Tokens, s: Server, socket: Socket, r: Registration)
    requires Inv(tokens, s) && socket !in s.clients && r.token == Expected(tokens, r.role)
    requires RoomFor(s, r).productCode == r.productCode && At(RoomFor(s, r), r.role).None?
    ensures Inv(tokens, Admit(s, socket, r))
  {
    hide InOrder;
    hide ProperHop;
    var t := Admit(s, socket, r);
    assert Consistent(tokens, t) by {
      hide Forwarded;
      forall other | other in t.clients ensures HasPlace(tokens, t, other) {
        if other != socket { assert HasPlace(tokens, s, other); }
      }
      forall session, role | session in t.rooms && At(t.rooms[session], role).Some? ensures Occupied(t, session, role) {
        if session != r.session || role != r.role { assert Occupied(s, session, role); }
      }
    }
    assert Forwarded(tokens, t) by { hide Consistent; }
  }

  lemma RegisterKeeps(tokens: Tokens, s: Server, socket: Socket, r: Registration)
    requires Inv(tokens, s)
    ensures Inv(tokens, Register(tokens, s, socket, r))
  {
    hide Inv;
    var room := RoomFor(s, r);
    DestroyKeeps(tokens, s, socket, AuthFailed);
    DestroyKeeps(tokens, s, socket, RoomMismatch);
    DestroyKeeps(tokens, s, socket, RoleConflict);
    if socket !in s.clients && Expected(tokens, r.role) == r.token && room.productCode == r.productCode &&
       At(room, r.role).None? {
      AdmitKeeps(tokens, s, socket, r);
      if At(room, Opposite(r.role)).Some? && At(room, Opposite(r.role)).value in s.clients {
        var t, peer := Admit(s, socket, r), At(room, Opposite(r.role)).value;
        var key := PeerKey(r.session, r.productCode, Opposite(r.role), t.clients[peer].registration.publicKey);
        SendKeeps(tokens, t, socket, key);
        SendKeeps(tokens, Send(t, socket, key), peer, KeyOf(r));
      }
    }
  }

  lemma DestroyKeeps(tokens: Tokens, s: Server, socket: Socket, code: ErrorCode)
    requires Inv(tokens, s)
    ensures Inv(tokens, RejectAndDestroy(s, socket, code))
  {
    SameInv(tokens, s, RejectAndDestroy(s, socket, code));
  }

  lemma RouteKeeps(tokens: Tokens, s: Server, socket: Socket, p: Packet)
    requires Inv(tokens, s) && Parses(p)
    ensures Inv(tokens, RoutePacket(s, socket, p))
  {
    hide InOrder;
    hide Remembers;
    if Sender(s, socket, p) && p.sequence > s.clients[socket].lastSequence &&
       p.nonce !in s.clients[socket].seenNonces && TargetPresent(s, p)
    {
      var client, to := s.clients[socket], At(s.rooms[p.session], p.target).value;
      var hop := Hop(client.serial, client.registration, s.clients[to].registration, to, p, to !in s.destroyed);
      var moved := client.(lastSequence := p.sequence, seenNonces := client.seenNonces + {p.nonce});
      var t := s.(clients := s.clients[socket := moved], hops := s.hops + [hop]);
      assert ProperHop(tokens, hop) by {
        assert HasPlace(tokens, s, socket) && HasPlace(tokens, s, to) && Occupied(s, p.session, p.target);
      }
      HopInOrder(s, socket, hop);
      HopRemembered(s, socket, hop);
      assert forall h <- t.hops :: h == hop || h in s.hops;
      SamePlaces(tokens, s, t);
      SameInv(tokens, t, RoutePacket(s, socket, p));
    } else {
      SameInv(tokens, s, RoutePacket(s, socket, p));
    }
  }

  /** Only registrations matter for places. */
  lemma SamePlaces(tokens: Tokens, s: Server, t: Server)
    requires Consistent(tokens, s) && t.rooms == s.rooms && t.clients.Keys == s.clients.Keys
    requires forall socket <- s.clients :: t.clients[socket].registration == s.clients[socket].registration
    ensures Consistent(tokens, t)
  {
    forall socket | socket in t.clients ensures HasPlace(tokens, t, socket) { assert HasPlace(tokens, s, socket); }
    forall session, role | session in t.rooms && At(t.rooms[session], role).Some? ensures Occupied(t, session, role) {
      assert Occupied(s, session, role);
    }
  }

  lemma HopInOrder(s: Server, socket: Socket, hop: Hop)
    requires Remembers(s) && InOrder(s.hops) && socket in s.clients && hop.serial == s.clients[socket].serial
    requires hop.source == s.clients[socket].registration
    requires s.clients[socket].lastSequence < hop.packet.sequence && hop.packet.nonce !in s.clients[socket].seenNonces
    ensures InOrder(s.hops + [hop])
  {
    var hops := s.hops + [hop];
    forall i, j | 0 <= i < j < |hops| && hops[i].serial == hops[j].serial
      ensures hops[i].source == hops[j].source && hops[i].packet.sequence < hops[j].packet.sequence &&
        hops[i].packet.nonce != hops[j].packet.nonce
    {
      assert hops[i] == s.hops[i] && s.hops[i] in s.hops;
    }
  }

  lemma HopRemembered(s: Server, socket: Socket, hop: Hop)
    requires Remembers(s) && socket in s.clients && hop.serial == s.clients[socket].serial
    requires hop.source == s.clients[socket].registration && s.clients[socket].lastSequence < hop.packet.sequence
    ensures var client := s.clients[socket];
      var moved := client.(lastSequence := hop.packet.sequence, seenNonces := client.seenNonces + {hop.packet.nonce});
      Remembers(s.(clients := s.clients[socket := moved], hops := s.hops + [hop]))
  {}

  lemma CloseKeeps(tokens: Tokens, s: Server, socket: Socket)
    requires Inv(tokens, s)
    ensures Inv(tokens, Close(s, socket))
  {
    hide ProperHop;
    hide InOrder;
    if socket in s.clients {
      var r, t := s.clients[socket].registration, Close(s, socket);
      assert HasPlace(tokens, s, socket);
      assert Consistent(tokens, t) by {
        hide Forwarded;
        forall other | other in t.clients ensures HasPlace(tokens, t, other) {
          assert HasPlace(tokens, s, other);
        }
        forall session, role | session in t.rooms && At(t.rooms[session], role).Some?
          ensures Occupied(t, session, role)
        {
          assert Occupied(s, session, role);
        }
      }
      assert Forwarded(tokens, t) by { hide Consistent; }
    }
  }

  lemma HandleKeeps(tokens: Tokens, s: Server, e: Event)
    requires Inv(tokens, s)
    ensures Inv(tokens, Handle(tokens, s, e))
  {
    hide Inv;
    hide Register;
    hide RoutePacket;
    hide Close;
    match e
    case Arrives(socket, Registers(r)) => RegisterKeeps(tokens, s, socket, r);
    case Arrives(socket, Sends(p)) =>
      if Parses(p) { RouteKeeps(tokens, s, socket, p); } else { SendKeeps(tokens, s, socket, Error(InvalidFrame)); }
    case Arrives(socket, Unreadable) => SendKeeps(tokens, s, socket, Error(InvalidFrame));
    case Oversized(socket) => DestroyKeeps(tokens, s, socket, InvalidFrame);
    case Closes(socket) => CloseKeeps(tokens, s, socket);
  }

  /** Whatever clients send and in whatever order they come and go. */
  lemma {:induction false} ServingKeeps(tokens: Tokens, events: seq<Event>)
    ensures Inv(tokens, Serve(tokens, events))
  {
    hide Inv;
    hide Handle;
    if events == [] {
      IdleInv(tokens);
    } else {
      ServingKeeps(tokens, events[..|events| - 1]);
      HandleKeeps(tokens, Serve(tokens, events[..|events| - 1]), events[|events| - 1]);
    }
  }

  lemma IdleInv(tokens: Tokens)
    ensures Inv(tokens, IDLE)
  {}

  // ---- What reaches the wire ----

  lemma SendOnWire(s: Server, to: Socket, message: Message)
    ensures Wire(Send(s, to, message).sent) ==
      Wire(s.sent) + (if message.Forward? && to !in s.destroyed then [(to, message.packet)] else [])
  {
    var t := Send(s, to, message);
    if to !in s.destroyed { assert t.sent[..|t.sent| - 1] == s.sent; }
  }

  lemma HandledOnWire(tokens: Tokens, s: Server, e: Event)
    requires Wire(s.sent) == Written(s.hops)
    ensures Wire(Handle(tokens, s, e).sent) == Written(Handle(tokens, s, e).hops)
  {
    hide Wire;
    hide Written;
    hide Sender;
    hide TargetPresent;
    SendOnWire(s, e.socket, Error(AuthFailed));
    SendOnWire(s, e.socket, Error(RoomMismatch));
    SendOnWire(s, e.socket, Error(RoleConflict));
    SendOnWire(s, e.socket, Error(InvalidFrame));
    SendOnWire(s, e.socket, Error(ReplayRejected));
    SendOnWire(s, e.socket, Error(NonceReused));
    SendOnWire(s, e.socket, Error(PeerUnavailable));
    match e
    case Arrives(socket, Registers(r)) =>
      var t, peer := Admit(s, socket, r), At(RoomFor(s, r), Opposite(r.role));
      if peer.Some? && peer.value in s.clients {
        var key := PeerKey(r.session, r.productCode, Opposite(r.role), t.clients[peer.value].registration.publicKey);
        SendOnWire(t, socket, key);
        SendOnWire(Send(t, socket, key), peer.value, KeyOf(r));
      }
    case Arrives(socket, Sends(p)) => if Parses(p) { RoutedOnWire(s, socket, p); }
    case _ =>
  }

  lemma RoutedOnWire(s: Server, socket: Socket, p: Packet)
    requires Wire(s.sent) == Written(s.hops)
    ensures Wire(RoutePacket(s, socket, p).sent) == Written(RoutePacket(s, socket, p).hops)
  {
    hide Wire;
    hide Written;
    SendOnWire(s, socket, Error(RoomMismatch));
    SendOnWire(s, socket, Error(ReplayRejected));
    SendOnWire(s, socket, Error(NonceReused));
    SendOnWire(s, socket, Error(PeerUnavailable));
    if Sender(s, socket, p) && TargetPresent(s, p) {
      var client, to := s.clients[socket], At(s.rooms[p.session], p.target).value;
      var hops := s.hops + [HopTo(s, client, to, p)];
      var moved := client.(lastSequence := p.sequence, seenNonces := client.seenNonces + {p.nonce});
      SendOnWire(s.(clients := s.clients[socket := moved], hops := hops), to, Forward(p));
      WrittenGrows(s.hops, hops[|s.hops|]);
    }
  }

  lemma WrittenGrows(hops: seq<Hop>, h: Hop)
    ensures Written(hops + [h]) == if h.written then Written(hops) + [(h.to, h.packet)] else Written(hops)
  {
    assert (hops + [h])[..|hops|] == hops;
  }

  /** Over every run: each packet on the wire went to the opposite role of its session, and the
      packets of one registration went out in increasing order, each nonce once. */
  lemma {:induction false} OnlyProperPacketsReachTheWire(tokens: Tokens, events: seq<Event>)
    ensures var s := Serve(tokens, events);
      Wire(s.sent) == Written(s.hops) && InOrder(s.hops) && forall h <- s.hops :: ProperHop(tokens, h)
  {
    hide Handle;
    hide Consistent;
    hide Remembers;
    ServingKeeps(tokens, events);
    if events != [] {
      OnlyProperPacketsReachTheWire(tokens, events[..|events| - 1]);
      HandledOnWire(tokens, Serve(tokens, events[..|events| - 1]), events[|events| - 1]);
    }
  }

  /** Exactly when a packet is forwarded: its sender is registered for it, it is newer than all before,
      its nonce is fresh, and the other party is registered in the same session. */
  lemma ForwardedExactlyWhen(tokens: Tokens, s: Server, socket: Socket, p: Packet)
    requires Inv(tokens, s) && Parses(p)
    ensures RoutePacket(s, socket, p).hops != s.hops <==>
      && Sender(s, socket, p)
      && s.clients[socket].lastSequence < p.sequence && p.nonce !in s.clients[socket].seenNonces
      && exists peer <- s.clients ::
           s.clients[peer].registration.session == p.session && s.clients[peer].registration.role == Opposite(p.sender)
    ensures RoutePacket(s, socket, p).hops != s.hops ==>
      var h := RoutePacket(s, socket, p).hops[|s.hops|];
      h.packet == p && h.to in s.clients && h.target == s.clients[h.to].registration
  {
    hide Forwarded;
    if TargetPresent(s, p) {
      assert Occupied(s, p.session, p.target);
    } else {
      forall peer | peer in s.clients && s.clients[peer].registration.session == p.session
        ensures s.clients[peer].registration.role != Opposite(p.sender)
      {
        assert HasPlace(tokens, s, peer);
      }
    }
    assert forall h :: |s.hops + [h]| == |s.hops| + 1;
  }

  /** The second party of a session completes the key exchange: each side gets exactly what the other
      registered. */
  lemma PartiesGetEachOthersKey(tokens: Tokens, s: Server, socket: Socket, r: Registration, peer: Socket)
    requires Inv(tokens, s) && socket !in s.clients && socket in Register(tokens, s, socket, r).clients
    requires peer in s.clients && s.clients[peer].registration.session == r.session
    requires socket !in s.destroyed && peer !in s.destroyed
    ensures s.clients[peer].registration.role == Opposite(r.role)
    ensures Register(tokens, s, socket, r).sent ==
      s.sent + [Delivery(socket, KeyOf(s.clients[peer].registration)), Delivery(peer, KeyOf(r))]
  {
    hide Forwarded;
    assert HasPlace(tokens, s, peer);
  }

  /** A registration may be admitted: its socket is new, it has the token of its role, and among the
      clients of its session none differs in product code and none has its role. */
  predicate MayJoin(tokens: Tokens, s: Server, socket: Socket, r: Registration) {
    && socket !in s.clients
    && r.token == (match r.role case Buyer => tokens.buyer case Seller => tokens.seller)
    && forall other <- s.clients :: s.clients[other].registration.session == r.session ==>
         s.clients[other].registration.productCode == r.productCode && s.clients[other].registration.role != r.role
  }

  /** Exactly when a registration is admitted, in any reachable state. */
  lemma AdmittedExactlyWhen(tokens: Tokens, s: Server, socket: Socket, r: Registration)
    requires Inv(tokens, s)
    ensures var t := Register(tokens, s, socket, r);
      && (MayJoin(tokens, s, socket, r) ==> t.clients == s.clients[socket := Client(s.issued, r, 0, {})])
      && (!MayJoin(tokens, s, socket, r) ==> t.clients == s.clients && t.rooms == s.rooms)
      && (socket in t.clients && socket !in s.clients <==> MayJoin(tokens, s, socket, r))
  {
    hide Forwarded;
    RoomSpeaksForClients(tokens, s, r);
  }

  /** A room's product code and roles are those of the clients of its session. */
  lemma RoomSpeaksForClients(tokens: Tokens, s: Server, r: Registration)
    requires Inv(tokens, s)
    ensures var room := RoomFor(s, r);
      (room.productCode == r.productCode && At(room, r.role).None?) <==>
      forall other <- s.clients :: s.clients[other].registration.session == r.session ==>
        s.clients[other].registration.productCode == r.productCode && s.clients[other].registration.role != r.role
  {
    hide Forwarded;
    var room := RoomFor(s, r);
    forall other | other in s.clients && s.clients[other].registration.session == r.session
      ensures r.session in s.rooms && room.productCode == s.clients[other].registration.productCode
      ensures At(room, s.clients[other].registration.role) == Some(other)
    {
      assert HasPlace(tokens, s, other);
    }
    if r.session in s.rooms {
      assert !Empty(room);
      var role := if room.buyer.Some? then Buyer else Seller;
      assert Occupied(s, r.session, role) && HasPlace(tokens, s, At(room, role).value);
      if At(room, r.role).Some? { assert Occupied(s, r.session, r.role); }
    }
  }

  /** A refused registration is told why, loses its connection, and changes nothing else. */
  lemma RefusedRegistrationsAreToldWhy(tokens: Tokens, s: Server, socket: Socket, r: Registration)
    requires Inv(tokens, s) && !MayJoin(tokens, s, socket, r) && socket !in s.destroyed
    ensures var right := if r.role.Buyer? then tokens.buyer else tokens.seller;
      var otherProduct := exists other <- s.clients ::
        && s.clients[other].registration.session == r.session
        && s.clients[other].registration.productCode != r.productCode;
      var code := if socket in s.clients || r.token != right then AuthFailed
                  else if otherProduct then RoomMismatch else RoleConflict;
      Register(tokens, s, socket, r) ==
        s.(sent := s.sent + [Delivery(socket, Error(code))], destroyed := s.destroyed + {socket})
  {
    hide Forwarded;
    RoomSpeaksForClients(tokens, s, r);
    RoomSpeaksForClients(tokens, s, r.(role := Opposite(r.role)));
    var room := RoomFor(s, r);
    forall other | other in s.clients && s.clients[other].registration.session == r.session
      ensures r.session in s.rooms && room.productCode == s.clients[other].registration.productCode
    {
      assert HasPlace(tokens, s, other);
    }
    if r.session in s.rooms {
      var role := if room.buyer.Some? then Buyer else Seller;
      assert Occupied(s, r.session, role) && HasPlace(tokens, s, At(room, role).value);
    }
  }

  /** A refused packet is answered with the first reason there is, and changes nothing else. */
  lemma RefusedPacketsAreToldWhy(tokens: Tokens, s: Server, socket: Socket, p: Packet)
    requires Inv(tokens, s) && Parses(p) && RoutePacket(s, socket, p).hops == s.hops && socket !in s.destroyed
    ensures var code := if !Sender(s, socket, p) then RoomMismatch
        else if p.sequence <= s.clients[socket].lastSequence then ReplayRejected
        else if p.nonce in s.clients[socket].seenNonces then NonceReused
        else PeerUnavailable;
      RoutePacket(s, socket, p) == s.(sent := s.sent + [Delivery(socket, Error(code))])
  {
    assert forall h :: |s.hops + [h]| == |s.hops| + 1;
  }

  /** Two honest parties that register for one session, in either order, get each other's keys, and the
      first packet of either goes through. */
  lemma HonestPairIsJoined(tokens: Tokens, a: Socket, b: Socket, first: Registration, second: Registration, p: Packet)
    requires a != b && first.role != second.role
    requires first.session == second.session && first.productCode == second.productCode
    requires first.token == (if first.role.Buyer? then tokens.buyer else tokens.seller)
    requires second.token == (if second.role.Buyer? then tokens.buyer else tokens.seller)
    requires Parses(p) && p.session == first.session && p.productCode == first.productCode && p.sender == first.role
    ensures var s := Serve(tokens, [Arrives(a, Registers(first)), Arrives(b, Registers(second))]);
      && s.sent == [Delivery(b, KeyOf(first)), Delivery(a, KeyOf(second))]
      && Handle(tokens, s, Arrives(a, Sends(p))).sent == s.sent + [Delivery(b, Forward(p))]
  {
    var one, two := Arrives(a, Registers(first)), Arrives(b, Registers(second));
    assert [one, two][..1] == [one] && [one][..0] == [];
    ServingKeeps(tokens, [one]);
    ServingKeeps(tokens, [one, two]);
    IdleInv(tokens);
    PairRegisters(tokens, a, b, first, second);
  }

  lemma PairRegisters(tokens: Tokens, a: Socket, b: Socket, first: Registration, second: Registration)
    requires a != b && first.role != second.role
    requires first.session == second.session && first.productCode == second.productCode
    requires first.token == (if first.role.Buyer? then tokens.buyer else tokens.seller)
    requires second.token == (if second.role.Buyer? then tokens.buyer else tokens.seller)
    ensures var s := Register(tokens, Register(tokens, IDLE, a, first), b, second);
      && s.clients == map[a := Client(0, first, 0, {}), b := Client(1, second, 0, {})]
      && s.sent == [Delivery(b, KeyOf(first)), Delivery(a, KeyOf(second))] && s.destroyed == {}
      && first.session in s.rooms
      && At(s.rooms[first.session], first.role) == Some(a) && At(s.rooms[first.session], second.role) == Some(b)
  {
    IdleInv(tokens);
    AdmittedExactlyWhen(tokens, IDLE, a, first);
    var s := Register(tokens, IDLE, a, first);
    RegisterKeeps(tokens, IDLE, a, first);
    AdmittedExactlyWhen(tokens, s, b, second);
  }

  // ---- The server ----

  /** The state of one registered socket, shared by `clients` and its room. */
  class ClientState {
    const socket: Socket
    const registration: Registration
    ghost const serial: nat
    var lastSequence: int
    var seenNonces: set<nat>

    constructor (socket: Socket, registration: Registration, ghost serial: nat)
      ensures this.socket == socket && this.registration == registration && this.serial == serial
      ensures lastSequence == 0 && seenNonces == {}
    {
      this.socket, this.registration, this.serial := socket, registration, serial;
      lastSequence, seenNonces := 0, {};
    }

    ghost function Value(): Client
      reads this
    {
      Client(serial, registration, lastSequence, seenNonces)
    }
  }

  function Sockets(room: Room<ClientState>): Room<Socket> {
    Room(room.productCode,
         if room.buyer.Some? then Some(room.buyer.value.socket) else None,
         if room.seller.Some? then Some(room.seller.value.socket) else None)
  }

  /** A client stands nowhere but in its own place. */
  predicate OnlyAt(rooms: map<nat, Room<Socket>>, socket: Socket, session: nat, role: Role) {
    && session in rooms
    && forall other, r :: other in rooms && At(rooms[other], r) == Some(socket) ==> other == session && r == role
  }

  lemma OnlyPlace(tokens: Tokens, s: Server, socket: Socket)
    requires Inv(tokens, s) && socket in s.clients
    ensures OnlyAt(s.rooms, socket, s.clients[socket].registration.session, s.clients[socket].registration.role)
  {
    hide Forwarded;
    assert HasPlace(tokens, s, socket);
    forall session, role | session in s.rooms && At(s.rooms[session], role) == Some(socket)
      ensures session == s.clients[socket].registration.session && role == s.clients[socket].registration.role
    {
      assert Occupied(s, session, role);
    }
  }

  lemma PeerIsKept(s: Server, socket: Socket, r: Registration, peer: Socket)
    requires peer in s.clients && socket !in s.clients
    ensures peer in Admit(s, socket, r).clients && Admit(s, socket, r).clients[peer] == s.clients[peer]
  {}

  /** Rooms hold the very client objects that `clients` holds. */
  ghost predicate Linked(rooms: map<nat, Room<ClientState>>, clients: map<Socket, ClientState>) {
    && (forall socket <- clients :: clients[socket].socket == socket)
    && (forall session, role: Role :: session in rooms && At(rooms[session], role).Some? ==>
          var c := At(rooms[session], role).value; c.socket in clients && clients[c.socket] == c)
  }

  function RoomSockets(rooms: map<nat, Room<ClientState>>): map<nat, Room<Socket>> {
    map session | session in rooms :: Sockets(rooms[session])
  }

  /** Leaving one's only place keeps rooms and clients linked. */
  lemma LeavingKeepsLinks(rooms: map<nat, Room<ClientState>>, clients: map<Socket, ClientState>, socket: Socket,
      session: nat, role: Role)
    requires Linked(rooms, clients) && OnlyAt(RoomSockets(rooms), socket, session, role)
    ensures Linked(WithRoom(rooms, session, Put(rooms[session], role, None)), clients - {socket})
    ensures RoomSockets(WithRoom(rooms, session, Put(rooms[session], role, None))) ==
      WithRoom(RoomSockets(rooms), session, Put(RoomSockets(rooms)[session], role, None))
  {
    var after: map<nat, Room<ClientState>> := WithRoom(rooms, session, Put(rooms[session], role, None));
    forall other, r: Role | other in after && At(after[other], r).Some?
      ensures var c := At(after[other], r).value; c.socket in clients - {socket} && (clients - {socket})[c.socket] == c
    {
      assert At(rooms[other], r) == At(after[other], r);
      assert At(RoomSockets(rooms)[other], r) == Some(At(after[other], r).value.socket);
    }
  }

  class RelayServer {
    const tokens: Tokens
    var rooms: map<nat, Room<ClientState>>
    var clients: map<Socket, ClientState>
    var destroyed: set<Socket>
    var sent: seq<Delivery>
    ghost var hops: seq<Hop>
    ghost var issued: nat

    ghost predicate Valid()
      reads this
    {
      Linked(rooms, clients)
    }

    ghost function State(): Server
      reads this, clients.Values
    {
      var values := map socket | socket in clients :: clients[socket].Value();
      Server(RoomSockets(rooms), values, destroyed, sent, hops, issued)
    }

    constructor (tokens: Tokens)
      ensures this.tokens == tokens && Valid() && State() == IDLE && clients == map[]
    {
      this.tokens := tokens;
      rooms, clients, destroyed, sent, hops, issued := map[], map[], {}, [], [], 0;
    }

    method Write(to: Socket, message: Message)
      modifies this`sent
      ensures State() == Send(old(State()), to, message)
    {
      if to !in destroyed { sent := sent + [Delivery(to, message)]; }
      assert State().clients == old(State().clients) && State().rooms == old(State().rooms);
    }

    method Refuse(socket: Socket, code: ErrorCode)
      requires Valid()
      modifies this`sent, this`destroyed
      ensures Valid() && State() == RejectAndDestroy(old(State()), socket, code)
    {
      Write(socket, Error(code));
      ghost var s := State();
      destroyed := destroyed + {socket};
      assert State().clients == s.clients && State().rooms == s.rooms;
    }

    /** What the server finds for a role in a room is what its state says. */
    lemma PeerState(room: Room<ClientState>, session: nat, role: Role)
      requires Valid() && (if session in rooms then room == rooms[session] else room.buyer.None? && room.seller.None?)
      ensures At(Sockets(room), role).Some? == At(room, role).Some?
      ensures At(room, role).Some? ==>
        var c := At(room, role).value;
        At(Sockets(room), role) == Some(c.socket) && c.socket in State().clients &&
          State().clients[c.socket] == c.Value()
    {}

    /** The new client object goes both into its room and under its socket. */
    method Add(state: ClientState, room: Room<ClientState>)
      requires Valid() && state.socket !in clients && state.Value() == Client(issued, state.registration, 0, {})
      requires Sockets(room) == RoomFor(State(), state.registration)
      requires forall role: Role :: At(room, role).Some? ==>
        var c := At(room, role).value; c.socket in clients && clients[c.socket] == c
      modifies this`rooms, this`clients, this`issued
      ensures Valid() && State() == Admit(old(State()), state.socket, state.registration)
      ensures clients == old(clients)[state.socket := state]
    {
      hide RoomFor;
      ghost var s := State();
      var r := state.registration;
      var placed := Put(room, r.role, Some(state));
      rooms := rooms[r.session := placed];
      clients := clients[state.socket := state];
      issued := issued + 1;
      assert Valid() by {
        forall session, role: Role | session in rooms && At(rooms[session], role).Some?
          ensures var c := At(rooms[session], role).value; c.socket in clients && clients[c.socket] == c
        {
          if session == r.session && role != r.role { assert At(room, role) == At(placed, role); }
        }
      }
      assert Sockets(placed) == Put(RoomFor(s, r), r.role, Some(state.socket));
      assert State().rooms == s.rooms[r.session := Sockets(placed)];
      assert State().clients == s.clients[state.socket := state.Value()];
    }

    method AcceptRegistration(socket: Socket, r: Registration)
      requires Valid()
      modifies this
      ensures Valid() && State() == Register(tokens, old(State()), socket, r)
      ensures fresh(clients.Values - old(clients.Values))
    {
      hide Admit;
      if socket in clients || Expected(tokens, r.role) != r.token { Refuse(socket, AuthFailed); return; }
      var room := if r.session in rooms then rooms[r.session] else Room(r.productCode, None, None);
      if room.productCode != r.productCode { Refuse(socket, RoomMismatch); return; }
      PeerState(room, r.session, r.role);
      PeerState(room, r.session, Opposite(r.role));
      if At(room, r.role).Some? { Refuse(socket, RoleConflict); return; }
      ghost var s := State();
      var state := new ClientState(socket, r, issued);
      assert State() == s;
      Add(state, room);
      var peer := At(room, Opposite(r.role));
      if peer.None? { return; }
      PeerIsKept(s, socket, r, peer.value.socket);
      Write(socket, PeerKey(r.session, r.productCode, Opposite(r.role), peer.value.registration.publicKey));
      Write(peer.value.socket, KeyOf(r));
    }

    /** Marks a packet as forwarded. */
    method Record(sender: ClientState, target: ClientState, p: Packet)
      requires Valid() && sender.socket in clients && clients[sender.socket] == sender
      modifies this`hops, sender
      ensures Valid()
      ensures sender.Value() ==
        old(sender.Value()).(lastSequence := p.sequence, seenNonces := old(sender.seenNonces) + {p.nonce})
      ensures State() == old(State()).(
        clients := old(State()).clients[sender.socket := sender.Value()],
        hops := old(hops) + [Hop(sender.serial, sender.registration, target.registration, target.socket, p,
          target.socket !in destroyed)])
    {
      sender.lastSequence := p.sequence;
      sender.seenNonces := sender.seenNonces + {p.nonce};
      hops := hops + [Hop(sender.serial, sender.registration, target.registration, target.socket, p,
        target.socket !in destroyed)];
      assert State().clients == old(State()).clients[sender.socket := sender.Value()];
      assert State().rooms == old(State()).rooms;
    }

    method AcceptPacket(socket: Socket, p: Packet)
      requires Valid()
      modifies this, clients.Values
      ensures Valid() && State() == RoutePacket(old(State()), socket, p)
      ensures clients == old(clients)
    {
      if socket !in clients || clients[socket].registration.role != p.sender ||
         clients[socket].registration.session != p.session || clients[socket].registration.productCode != p.productCode
      { Write(socket, Error(RoomMismatch)); return; }
      var sender := clients[socket];
      if p.sequence <= sender.lastSequence { Write(socket, Error(ReplayRejected)); return; }
      if p.nonce in sender.seenNonces { Write(socket, Error(NonceReused)); return; }
      if p.session !in rooms { Write(socket, Error(PeerUnavailable)); return; }
      PeerState(rooms[p.session], p.session, p.target);
      if At(rooms[p.session], p.target).None? { Write(socket, Error(PeerUnavailable)); return; }
      var target := At(rooms[p.session], p.target).value;
      Record(sender, target, p);
      Write(target.socket, Forward(p));
    }

    /** Takes a client out of its only place. */
    method Remove(state: ClientState)
      requires Valid() && state.socket in clients && clients[state.socket] == state
      requires OnlyAt(RoomSockets(rooms), state.socket, state.registration.session, state.registration.role)
      modifies this`rooms, this`clients
      ensures Valid() && State() == Close(old(State()), state.socket)
      ensures clients == old(clients) - {state.socket}
    {
      hide Linked;
      ghost var s := State();
      var r := state.registration;
      clients := clients - {state.socket};
      LeavingKeepsLinks(rooms, old(clients), state.socket, r.session, r.role);
      rooms := WithRoom(rooms, r.session, Put(rooms[r.session], r.role, None));
      assert State().clients == s.clients - {state.socket};
    }

    method AcceptClose(socket: Socket)
      requires Valid() && Inv(tokens, State())
      modifies this`rooms, this`clients
      ensures Valid() && State() == Close(old(State()), socket)
      ensures clients.Values <= old(clients.Values)
    {
      hide Inv;
      hide OnlyAt;
      if socket !in clients { return; }
      OnlyPlace(tokens, State(), socket);
      Remove(clients[socket]);
    }

    method Accept(e: Event)
      requires Valid() && Inv(tokens, State())
      modifies this, clients.Values
      ensures Valid() && Inv(tokens, State()) && State() == Handle(tokens, old(State()), e)
      ensures fresh(clients.Values - old(clients.Values))
    {
      hide Inv;
      hide Register;
      hide RoutePacket;
      hide Close;
      HandleKeeps(tokens, State(), e);
      match e {
        case Arrives(socket, Registers(r)) => AcceptRegistration(socket, r);
        case Arrives(socket, Sends(p)) =>
          if Parses(p) { AcceptPacket(socket, p); } else { Write(socket, Error(InvalidFrame)); }
        case Arrives(socket, Unreadable) => Write(socket, Error(InvalidFrame));
        case Oversized(socket) => Refuse(socket, InvalidFrame);
        case Closes(socket) => AcceptClose(socket);
      }
    }
  }

  /** A server that accepts any events is in the state of serving them, so what is on its wire is proper. */
  method ServeAll(tokens: Tokens, events: seq<Event>) returns (server: RelayServer)
    ensures fresh(server) && server.Valid() && server.State() == Serve(tokens, events)
    ensures Wire(server.sent) == Written(server.hops) && InOrder(server.hops)
    ensures forall h <- server.hops :: ProperHop(tokens, h)
  {
    hide Handle;
    hide Inv;
    hide InOrder;
    hide ProperHop;
    server := new RelayServer(tokens);
    IdleInv(tokens);
    assert events[..0] == [];
    for k := 0 to |events|
      invariant fresh(server) && fresh(server.clients.Values) && server.tokens == tokens
      invariant server.Valid() && Inv(tokens, server.State()) && server.State() == Serve(tokens, events[..k])
    {
      server.Accept(events[k]);
      assert events[..k + 1][..k] == events[..k];
    }
    assert events[..|events|] == events;
    OnlyProperPacketsReachTheWire(tokens, events);
  }
}
