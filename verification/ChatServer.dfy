/** The server's steps that change who is where: connecting, joining, changing room, voice, and disconnecting. */
module ServerSpec {
  import opened Common
  import opened RoomNames
  import opened RegistrySpec
  import opened HubSpec
  import opened VoicePackets
  import Relay = RelaySpec
  import RelayRuns

  const MAX_CLIENTS: nat := 50
  const CODEC_CHARS: nat := 16
  const PUBLIC_KEY_CHARS: nat := 128

  /**
   `connected` has a thread for each; `seats` is the room and the name each thread holds once its client has joined.
  */
  datatype Server = Server(hub: Hub, voice: Relay.Relay, connected: set<string>, seats: map<string, Seat>)

  const STARTED: Server := Server(NO_ONE, Relay.EMPTY, {}, map[])

  /** What a client proposes when it joins voice, with what the server adds. */
  datatype VoiceRequest = VoiceRequest(ip: string, salt: string, codec: string, publicKey: string, token: Bytes)

  function Cut(s: string, n: nat): string {
    if |s| > n then s[..n] else s
  }

  function NamesInUse(g: Rooms, room: string, c: string, fold: Folding): set<string> {
    Taken(Usernames(Members(g, room).order, Members(g, room).items, Some(c)), fold)
  }

  function SettledName(g: Rooms, room: string, requested: string, c: string, fold: Folding): string {
    UniqueName(requested, NamesInUse(g, room, c, fold), fold, c)
  }

  function Connect(s: Server, c: string): Server {
    if |s.connected| >= MAX_CLIENTS || c in s.connected then s else s.(connected := s.connected + {c})
  }

  function Sit(s: Server, c: string, room: string, requested: string, fold: Folding): Server {
    var name := SettledName(s.hub.registry, room, requested, c, fold);
    s.(hub := JoinRoom(s.hub, room, c, name), seats := s.seats[c := Seat(room, name)])
  }

  function Stand(s: Server, c: string): Server {
    s.(hub := LeaveRoom(s.hub, c), seats := s.seats - {c})
  }

  function Join(s: Server, c: string, room: Option<string>, user: Option<string>, fold: Folding): Server {
    if c in s.connected && c !in s.seats then Sit(s, c, CleanName(room, "general"), CleanName(user, c), fold) else s
  }

  /** On the way to another room the old seat is given up first. */
  function Vacated(s: Server, c: string, newRoom: string): Server {
    if c in s.seats && newRoom != s.seats[c].room then Stand(s, c) else s
  }

  /** The voice entry, if there is one, follows to the new seat. */
  function Follow(v: Relay.Relay, c: string, seat: Seat): Relay.Relay {
    Relay.Rename(Relay.Move(v, c, seat.room), c, seat.name)
  }

  function Rejoin(s: Server, c: string, room: Option<string>, user: Option<string>, fold: Folding): Server {
    if c !in s.seats then s
    else
      var seat := s.seats[c];
      var newRoom := CleanName(room, seat.room);
      var sat := Sit(Vacated(s, c, newRoom), c, newRoom, CleanName(user, seat.name), fold);
      sat.(voice := Follow(s.voice, c, sat.seats[c]))
  }

  function Disconnect(s: Server, c: string): Server {
    var hub := if c in s.seats then LeaveRoom(s.hub, c).(attached := s.hub.attached - {c}) else s.hub;
    Server(hub, Relay.Leave(s.voice, c), s.connected - {c}, s.seats - {c})
  }

  function VoiceEntry(seat: Seat, c: string, q: VoiceRequest): Relay.Entry {
    Relay.Entry(c, seat.name, seat.room, q.ip, Cut(q.salt, Relay.SALT_CHARS), Cut(q.codec, CODEC_CHARS),
                Cut(q.publicKey, PUBLIC_KEY_CHARS), q.token)
  }

  /** When no id is left the error ends the client's thread, and with it the connection. */
  function VoiceJoin(s: Server, c: string, q: VoiceRequest): Server {
    if c !in s.seats then s
    else if s.voice.nextId > MAX_SENDER_ID then Disconnect(s, c)
    else s.(voice := Relay.Join(s.voice, VoiceEntry(s.seats[c], c, q)))
  }

  function VoiceSalt(s: Server, c: string, salt: string): Server {
    s.(voice := Relay.SetSalt(s.voice, c, salt))
  }

  function VoiceLeave(s: Server, c: string): Server {
    s.(voice := Relay.Leave(s.voice, c))
  }

  function Hear(s: Server, p: Relay.Packet, from: Relay.Address, now: real): Server {
    s.(voice := RelayRuns.Arrive(s.voice, p, from, now))
  }

  datatype Event =
    | Connects(c: string)
    | Joins(c: string, room: Option<string>, user: Option<string>)
    | Rejoins(c: string, room: Option<string>, user: Option<string>)
    | VoiceJoins(c: string, request: VoiceRequest)
    | VoiceSalts(c: string, salt: string)
    | VoiceLeaves(c: string)
    | Hears(packet: Relay.Packet, from: Relay.Address, now: real)
    | Disconnects(c: string)

  function Step(s: Server, e: Event, fold: Folding): Server {
    match e
    case Connects(c) => Connect(s, c)
    case Joins(c, room, user) => Join(s, c, room, user, fold)
    case Rejoins(c, room, user) => Rejoin(s, c, room, user, fold)
    case VoiceJoins(c, q) => VoiceJoin(s, c, q)
    case VoiceSalts(c, salt) => VoiceSalt(s, c, salt)
    case VoiceLeaves(c) => VoiceLeave(s, c)
    case Hears(p, from, now) => Hear(s, p, from, now)
    case Disconnects(c) => Disconnect(s, c)
  }

  function Run(events: seq<Event>, fold: Folding): Server {
    if events == [] then STARTED else Step(Run(events[..|events| - 1], fold), events[|events| - 1], fold)
  }

  // What every step keeps.

  /** In a room no two names are the same, whatever their case. */
  ghost predicate NamesDiffer(seats: map<string, Seat>, fold: Folding) {
    forall c, d :: c in seats && d in seats && c != d && seats[c].room == seats[d].room
                   ==> Casefold(seats[c].name, fold) != Casefold(seats[d].name, fold)
  }

  /** Whoever is in voice is in it under the room and the name of the seat. */
  ghost predicate VoiceMatches(voice: map<string, Relay.Participant>, seats: map<string, Seat>) {
    forall c :: c in voice ==> c in seats && voice[c].room == seats[c].room && voice[c].username == seats[c].name
  }

  ghost predicate Few(connected: set<string>, seats: map<string, Seat>) {
    |connected| <= MAX_CLIENTS && seats.Keys <= connected
  }

  ghost predicate Seated(s: Server, fold: Folding) {
    Agrees(s.hub, s.seats) && Few(s.connected, s.seats) && NamesDiffer(s.seats, fold)
  }

  ghost predicate VoiceFollows(v: Relay.Relay, seats: map<string, Seat>) {
    Relay.Inv(v) && VoiceMatches(v.clients.items, seats)
  }

  ghost predicate Inv(s: Server, fold: Folding) {
    Seated(s, fold) && VoiceFollows(s.voice, s.seats)
  }

  /** A room has at most as many members as there are seats. */
  lemma RoomIsSmall(h: Hub, seats: map<string, Seat>, room: string)
    requires Agrees(h, seats)
    ensures |Members(h.registry, room).order| <= |seats.Keys|
  {
    var line := Members(h.registry, room).order;
    forall c | c in line ensures c in seats.Keys {
      assert NameIn(h.registry, room, c) == SeatedIn(seats, room, c);
    }
    DistinctSize(line);
    SubsetSize(Elements(line), seats.Keys);
  }

  /** With at most 50 clients the ending made of the client's id is never reached. */
  lemma FallbackIsUnreachable(h: Hub, seats: map<string, Seat>, room: string, requested: string, c: string,
                              fold: Folding)
    requires Agrees(h, seats) && |seats.Keys| <= MAX_CLIENTS && KeepsDigits(fold)
    ensures var taken := NamesInUse(h.registry, room, c, fold);
            |taken| <= MAX_CLIENTS && (Free(requested, taken, fold) || FirstFree(requested, 2, taken, fold).Some?)
  {
    var names := Usernames(Members(h.registry, room).order, Members(h.registry, room).items, Some(c));
    RoomIsSmall(h, seats, room);
    TakenSize(names, fold);
    var taken := NamesInUse(h.registry, room, c, fold);
    if !Free(requested, taken, fold) && FirstFree(requested, 2, taken, fold).None? {
      FallbackNeeds99(requested, taken, fold);
    }
  }

  ghost predicate FreeIn(seats: map<string, Seat>, room: string, name: string, c: string, fold: Folding) {
    forall d :: d in seats && d != c && seats[d].room == room ==> Casefold(seats[d].name, fold) != Casefold(name, fold)
  }

  lemma SettledNameIsFree(h: Hub, seats: map<string, Seat>, room: string, requested: string, c: string, fold: Folding)
    requires Agrees(h, seats) && |seats.Keys| <= MAX_CLIENTS && KeepsDigits(fold)
    ensures FreeIn(seats, room, SettledName(h.registry, room, requested, c, fold), c, fold)
  {
    var taken := NamesInUse(h.registry, room, c, fold);
    var members := Members(h.registry, room);
    FallbackIsUnreachable(h, seats, room, requested, c, fold);
    UniqueNameIsFree(requested, taken, fold, c);
    forall d | d in seats && d != c && seats[d].room == room ensures Casefold(seats[d].name, fold) in taken {
      assert NameIn(h.registry, room, d) == SeatedIn(seats, room, d);
      UsernamesAre(members.order, members.items, Some(c), members.items[d]);
    }
  }

  lemma FreeKeepsDiffering(seats: map<string, Seat>, c: string, seat: Seat, fold: Folding)
    requires NamesDiffer(seats, fold) && FreeIn(seats, seat.room, seat.name, c, fold)
    ensures NamesDiffer(seats[c := seat], fold)
  {
  }

  lemma FewerSeats(connected: set<string>, seats: map<string, Seat>)
    requires Few(connected, seats)
    ensures |seats.Keys| <= MAX_CLIENTS
  {
    SubsetSize(seats.Keys, connected);
  }

  /** Taking a seat, whatever voice says meanwhile. */
  lemma SitKeeps(s: Server, c: string, room: string, requested: string, fold: Folding)
    requires Seated(s, fold) && KeepsDigits(fold) && c in s.connected && room != ""
    ensures Seated(Sit(s, c, room, requested, fold), fold)
  {
    var name := SettledName(s.hub.registry, room, requested, c, fold);
    FewerSeats(s.connected, s.seats);
    SettledNameIsFree(s.hub, s.seats, room, requested, c, fold);
    FreeKeepsDiffering(s.seats, c, Seat(room, name), fold);
    JoinRoomAgrees(s.hub, s.seats, room, c, name);
  }

  lemma StandKeeps(s: Server, c: string, fold: Folding)
    requires Seated(s, fold)
    ensures Seated(Stand(s, c), fold)
  {
    LeaveRoomAgrees(s.hub, s.seats, c);
  }

  lemma VacatedKeeps(s: Server, c: string, room: string, fold: Folding)
    requires Seated(s, fold)
    ensures Seated(Vacated(s, c, room), fold) && Vacated(s, c, room).connected == s.connected
  {
    StandKeeps(s, c, fold);
  }

  /** The seat taken is the only one that differs. */
  lemma MoveOverChangesOneSeat(s: Server, c: string, room: string, requested: string, fold: Folding)
    ensures var seats := Sit(Vacated(s, c, room), c, room, requested, fold).seats;
            c in seats && seats == s.seats[c := seats[c]]
  {
    var seat := Sit(Vacated(s, c, room), c, room, requested, fold).seats[c];
    assert (s.seats - {c})[c := seat] == s.seats[c := seat];
  }

  lemma FollowMatches(v: Relay.Relay, seats: map<string, Seat>, c: string, seat: Seat)
    requires VoiceFollows(v, seats)
    ensures VoiceFollows(Follow(v, c, seat), seats[c := seat])
  {
    RelayRuns.MoveKeeps(v, c, seat.room);
    RelayRuns.RenameKeeps(Relay.Move(v, c, seat.room), c, seat.name);
  }

  lemma ConnectKeeps(s: Server, c: string, fold: Folding)
    requires Inv(s, fold)
    ensures Inv(Connect(s, c), fold)
  {
  }

  lemma JoinKeeps(s: Server, c: string, room: Option<string>, user: Option<string>, fold: Folding)
    requires Inv(s, fold) && KeepsDigits(fold)
    ensures Inv(Join(s, c, room, user, fold), fold)
  {
    if c in s.connected && c !in s.seats {
      SitKeeps(s, c, CleanName(room, "general"), CleanName(user, c), fold);
    }
  }

  lemma RejoinKeeps(s: Server, c: string, room: Option<string>, user: Option<string>, fold: Folding)
    requires Inv(s, fold) && KeepsDigits(fold)
    ensures Inv(Rejoin(s, c, room, user, fold), fold)
  {
    if c in s.seats {
      var seat := s.seats[c];
      assert seat.room != "";
      var newRoom := CleanName(room, seat.room);
      var requested := CleanName(user, seat.name);
      VacatedKeeps(s, c, newRoom, fold);
      SitKeeps(Vacated(s, c, newRoom), c, newRoom, requested, fold);
      MoveOverChangesOneSeat(s, c, newRoom, requested, fold);
      FollowMatches(s.voice, s.seats, c, Sit(Vacated(s, c, newRoom), c, newRoom, requested, fold).seats[c]);
    }
  }

  lemma LeaveVoiceKeeps(v: Relay.Relay, seats: map<string, Seat>, c: string)
    requires VoiceFollows(v, seats)
    ensures VoiceFollows(Relay.Leave(v, c), seats)
    ensures VoiceFollows(Relay.Leave(v, c), seats - {c})
  {
    Relay.LeaveKeeps(v, c);
  }

  lemma DisconnectKeeps(s: Server, c: string, fold: Folding)
    requires Inv(s, fold)
    ensures Inv(Disconnect(s, c), fold)
  {
    LeaveRoomAgrees(s.hub, s.seats, c);
    SubsetSize(s.connected - {c}, s.connected);
    LeaveVoiceKeeps(s.voice, s.seats, c);
    assert c !in s.seats ==> s.seats - {c} == s.seats;
  }

  lemma JoinVoiceKeeps(v: Relay.Relay, seats: map<string, Seat>, e: Relay.Entry)
    requires VoiceFollows(v, seats) && e.client in seats && Seat(e.room, e.username) == seats[e.client]
    ensures VoiceFollows(Relay.Join(v, e), seats)
  {
    Relay.JoinKeeps(v, e);
  }

  lemma VoiceJoinKeeps(s: Server, c: string, q: VoiceRequest, fold: Folding)
    requires Inv(s, fold)
    ensures Inv(VoiceJoin(s, c, q), fold)
  {
    if c in s.seats {
      if s.voice.nextId > MAX_SENDER_ID {
        DisconnectKeeps(s, c, fold);
      } else {
        JoinVoiceKeeps(s.voice, s.seats, VoiceEntry(s.seats[c], c, q));
      }
    }
  }

  lemma HearKeeps(s: Server, p: Relay.Packet, from: Relay.Address, now: real, fold: Folding)
    requires Inv(s, fold)
    ensures Inv(Hear(s, p, from, now), fold)
  {
    if s.voice.latest <= now {
      Relay.HandleKeeps(s.voice, p, from, now);
      Relay.HandleMovesNobody(s.voice, p, from, now);
    }
  }

  lemma VoiceSaltKeeps(s: Server, c: string, salt: string, fold: Folding)
    requires Inv(s, fold)
    ensures Inv(VoiceSalt(s, c, salt), fold)
  {
    RelayRuns.SaltKeeps(s.voice, c, salt);
  }

  lemma VoiceLeaveKeeps(s: Server, c: string, fold: Folding)
    requires Inv(s, fold)
    ensures Inv(VoiceLeave(s, c), fold)
  {
    LeaveVoiceKeeps(s.voice, s.seats, c);
  }

  lemma StepKeeps(s: Server, e: Event, fold: Folding)
    requires Inv(s, fold) && KeepsDigits(fold)
    ensures Inv(Step(s, e, fold), fold)
  {
    match e
    case Connects(c) => ConnectKeeps(s, c, fold);
    case Joins(c, room, user) => JoinKeeps(s, c, room, user, fold);
    case Rejoins(c, room, user) => RejoinKeeps(s, c, room, user, fold);
    case VoiceJoins(c, q) => VoiceJoinKeeps(s, c, q, fold);
    case Disconnects(c) => DisconnectKeeps(s, c, fold);
    case VoiceSalts(c, salt) => VoiceSaltKeeps(s, c, salt, fold);
    case VoiceLeaves(c) => VoiceLeaveKeeps(s, c, fold);
    case Hears(p, from, now) => HearKeeps(s, p, from, now, fold);
  }

  /**
   In every run: hub, registry and threads agree on who is where and under which name, no room is empty, no two
   names in a room are alike, and voice says the same as the hub.
  */
  lemma {:induction false} EveryRunKeeps(events: seq<Event>, fold: Folding)
    requires KeepsDigits(fold)
    ensures Inv(Run(events, fold), fold)
  {
    if events == [] {
    } else {
      EveryRunKeeps(events[..|events| - 1], fold);
      StepKeeps(Run(events[..|events| - 1], fold), events[|events| - 1], fold);
    }
  }

  // What each step achieves.

  /** A client that is not connected yet is taken up below 50, and nothing else changes. */
  lemma ConnectsBelowLimit(s: Server, c: string)
    requires c !in s.connected
    ensures c in Connect(s, c).connected <==> |s.connected| < 50
    ensures Connect(s, c) == s.(connected := Connect(s, c).connected)
    ensures Connect(s, c).connected - {c} == s.connected
  {
  }

  /** The names in use in a room are those of the others who sit there. */
  lemma InUseAreOthers(h: Hub, seats: map<string, Seat>, room: string, name: string, c: string, fold: Folding)
    requires Agrees(h, seats)
    ensures Free(name, NamesInUse(h.registry, room, c, fold), fold) <==> FreeIn(seats, room, name, c, fold)
  {
    var members := Members(h.registry, room);
    var names := Usernames(members.order, members.items, Some(c));
    if d :| d in seats && d != c && seats[d].room == room && Casefold(seats[d].name, fold) == Casefold(name, fold) {
      assert NameIn(h.registry, room, d) == SeatedIn(seats, room, d);
      UsernamesAre(members.order, members.items, Some(c), members.items[d]);
    }
    if i :| 0 <= i < |names| && Casefold(names[i], fold) == Casefold(name, fold) {
      UsernamesAre(members.order, members.items, Some(c), names[i]);
      var d :| d in members.order && d in members.items && Some(c) != Some(d) && members.items[d] == names[i];
      assert NameIn(h.registry, room, d) == SeatedIn(seats, room, d);
    }
  }

  /**
   A seat in the room asked for, under the name asked for if that is free there and otherwise under it with a number.
  */
  ghost predicate SeatedAs(before: map<string, Seat>, seat: Seat, c: string, room: string, requested: string,
                           fold: Folding) {
    && seat.room == room
    && (FreeIn(before, room, requested, c, fold) ==> seat.name == requested)
    && (!FreeIn(before, room, requested, c, fold) ==> exists n :: 2 <= n < 100 && seat.name == Candidate(requested, n))
  }

  lemma SitSeats(s: Server, c: string, room: string, requested: string, fold: Folding)
    requires Seated(s, fold) && KeepsDigits(fold)
    ensures var seats := Sit(s, c, room, requested, fold).seats;
            && c in seats && seats == s.seats[c := seats[c]] && SeatedAs(s.seats, seats[c], c, room, requested, fold)
  {
    var taken := NamesInUse(s.hub.registry, room, c, fold);
    FewerSeats(s.connected, s.seats);
    InUseAreOthers(s.hub, s.seats, room, requested, c, fold);
    FallbackIsUnreachable(s.hub, s.seats, room, requested, c, fold);
    if !Free(requested, taken, fold) {
      UniqueNameIsLeast(requested, taken, fold, c);
    }
  }

  /** Whoever joins gets a seat in the room it named, or in "general"; nobody else's seat changes. */
  lemma JoinSeats(s: Server, c: string, room: Option<string>, user: Option<string>, fold: Folding)
    requires Inv(s, fold) && KeepsDigits(fold) && c in s.connected && c !in s.seats
    ensures var seats := Join(s, c, room, user, fold).seats;
            && c in seats && seats == s.seats[c := seats[c]]
            && SeatedAs(s.seats, seats[c], c, CleanName(room, "general"), CleanName(user, c), fold)
  {
    SitSeats(s, c, CleanName(room, "general"), CleanName(user, c), fold);
  }

  lemma VacatedAsFree(s: Server, c: string, room: string, name: string, fold: Folding)
    ensures FreeIn(Vacated(s, c, room).seats, room, name, c, fold) <==> FreeIn(s.seats, room, name, c, fold)
  {
    var seats := Vacated(s, c, room).seats;
    assert forall d :: d != c ==> (d in seats <==> d in s.seats) && (d in seats ==> seats[d] == s.seats[d]);
  }

  /** Whoever asks again gets a seat in the room it names now, or stays, and voice goes along. */
  lemma RejoinSeats(s: Server, c: string, room: Option<string>, user: Option<string>, fold: Folding)
    requires Inv(s, fold) && KeepsDigits(fold) && c in s.seats
    ensures var after := Rejoin(s, c, room, user, fold);
            && c in after.seats && after.seats == s.seats[c := after.seats[c]]
            && SeatedAs(s.seats, after.seats[c], c, CleanName(room, s.seats[c].room), CleanName(user, s.seats[c].name),
                        fold)
            && (c in after.voice.clients.items <==> c in s.voice.clients.items)
  {
    var newRoom, requested := CleanName(room, s.seats[c].room), CleanName(user, s.seats[c].name);
    VacatedKeeps(s, c, newRoom, fold);
    SitSeats(Vacated(s, c, newRoom), c, newRoom, requested, fold);
    MoveOverChangesOneSeat(s, c, newRoom, requested, fold);
    VacatedAsFree(s, c, newRoom, requested, fold);
  }

  /** Nothing is left of whoever disconnects, and everybody else stays. */
  lemma DisconnectLeavesNothing(s: Server, c: string, fold: Folding)
    requires Inv(s, fold)
    ensures var after := Disconnect(s, c);
            && after.connected == s.connected - {c} && after.seats == s.seats - {c}
            && c !in after.hub.rooms && c !in after.hub.names && (c in s.seats ==> c !in after.hub.attached)
            && c !in after.voice.clients.items && Relay.OthersStay(s.voice, after.voice, c)
  {
    Relay.LeaveExits(s.voice, c);
    assert c !in s.seats ==> s.seats - {c} == s.seats;
  }

  /** Whoever joins voice is in it under its seat, with what it brought cut to size and the token it was given. */
  lemma VoiceJoinEnters(s: Server, c: string, q: VoiceRequest)
    requires c in s.seats && s.voice.nextId <= MAX_SENDER_ID
    ensures var after := VoiceJoin(s, c, q).voice;
            && Relay.OthersStay(s.voice, after, c) && c in after.clients.items
            && var p := after.clients.items[c];
            && p.id == s.voice.nextId && p.token == q.token && p.ip == q.ip && p.room == s.seats[c].room
            && p.username == s.seats[c].name && p.address == None
            && p.salt <= q.salt && |p.salt| == (if |q.salt| <= 64 then |q.salt| else 64)
            && p.publicKey <= q.publicKey && |p.publicKey| == (if |q.publicKey| <= 128 then |q.publicKey| else 128)
  {
    Relay.JoinEnters(s.voice, VoiceEntry(s.seats[c], c, q));
  }

  /** Salts and departures reach the relay, and so do datagrams. */
  lemma VoiceStepsAct(s: Server, c: string, salt: string, p: Relay.Packet, from: Relay.Address, now: real)
    ensures c in s.voice.clients.items ==>
              var items := VoiceSalt(s, c, salt).voice.clients.items;
              c in items && items[c].salt <= salt && (|salt| <= 64 ==> items[c].salt == salt)
    ensures c !in VoiceLeave(s, c).voice.clients.items && Relay.OthersStay(s.voice, VoiceLeave(s, c).voice, c)
    ensures s.voice.latest <= now ==> Hear(s, p, from, now).voice == Relay.Handle(s.voice, p, from, now).0
  {
    if c in s.voice.clients.items {
      Relay.DetailsChange(s.voice, c, "", "", salt);
    }
    Relay.LeaveExits(s.voice, c);
  }
}

/** The server as the object its threads share; each method is what one packet does. */
module ChatServers {
  import opened Common
  import opened RoomNames
  import opened HubSpec
  import opened MessageHubs
  import opened VoicePackets
  import Relay = RelaySpec
  import opened VoiceRelays
  import Spec = ServerSpec
  import opened ServerSpec

  class ChatServer {
    const hub: MessageHub
    const voice: VoiceRelay
    const fold: Folding
    /** The clients with a connection. */
    var connected: set<string>
    /** The room and the name each client's thread holds. */
    var seats: map<string, Seat>

    ghost function State(): Server
      reads this, hub, hub.registry, voice
    {
      Server(hub.State(), voice.State(), connected, seats)
    }

    constructor (fold: Folding)
      ensures this.fold == fold && State() == STARTED
    {
      hub := new MessageHub();
      voice := new VoiceRelay();
      this.fold, connected, seats := fold, {}, map[];
    }

    method Connect(c: string) returns (ok: bool)
      modifies this`connected
      ensures State() == Spec.Connect(old(State()), c)
      ensures ok <==> |old(connected)| < MAX_CLIENTS && c !in old(connected)
    {
      ok := |connected| < MAX_CLIENTS && c !in connected;
      if ok {
        connected := connected + {c};
      }
    }

    /** The name asked for, or else the first numbered one, that nobody else in the room has. */
    method UniqueUsername(room: string, requested: string, c: string) returns (name: string)
      ensures name == SettledName(hub.registry.rooms, room, requested, c, fold)
    {
      var taken := NamesInUse(hub.registry.rooms, room, c, fold);
      if Casefold(requested, fold) !in taken {
        return requested;
      }
      for suffix := 2 to 100
        invariant FirstFree(requested, 2, taken, fold) == FirstFree(requested, suffix, taken, fold)
      {
        if Casefold(Candidate(requested, suffix), fold) !in taken {
          return Candidate(requested, suffix);
        }
      }
      return requested + "-" + Suffix(c, 4);
    }

    method Sit(c: string, room: string, requested: string) returns (name: string)
      modifies hub, hub.registry, this`seats
      ensures State() == Spec.Sit(old(State()), c, room, requested, fold)
      ensures name == SettledName(old(hub.registry.rooms), room, requested, c, fold)
    {
      name := UniqueUsername(room, requested, c);
      var _ := hub.JoinRoom(room, c, name);
      seats := seats[c := Seat(room, name)];
    }

    /** The first packet of a connection. */
    method Join(c: string, room: Option<string>, user: Option<string>)
      modifies hub, hub.registry, this`seats
      ensures State() == Spec.Join(old(State()), c, room, user, fold)
    {
      if c in connected && c !in seats {
        var _ := Sit(c, CleanName(room, "general"), CleanName(user, c));
      }
    }

    /** A change of room, of name, or of both. */
    method Rejoin(c: string, room: Option<string>, user: Option<string>)
      modifies hub, hub.registry, voice, this`seats
      ensures State() == Spec.Rejoin(old(State()), c, room, user, fold)
    {
      if c !in seats {
        return;
      }
      var seat := seats[c];
      var newRoom := CleanName(room, seat.room);
      var requested := CleanName(user, seat.name);
      if newRoom != seat.room {
        hub.LeaveRoom(c);
        seats := seats - {c};
      }
      assert State() == Vacated(old(State()), c, newRoom);
      var name := Sit(c, newRoom, requested);
      voice.Move(c, newRoom);
      voice.Rename(c, name);
    }

    method Disconnect(c: string)
      modifies hub, hub.registry, voice, this
      ensures State() == Spec.Disconnect(old(State()), c)
    {
      connected := connected - {c};
      var _ := voice.Leave(c);
      if c in seats {
        hub.LeaveRoom(c);
        hub.DetachClient(c);
      }
      seats := seats - {c};
    }

    method VoiceJoin(c: string, q: VoiceRequest) returns (joined: Option<Relay.Participant>)
      requires Relay.Inv(voice.State())
      modifies hub, hub.registry, voice, this
      ensures State() == Spec.VoiceJoin(old(State()), c, q)
      ensures joined.Some? <==> c in old(seats) && old(voice.nextId) <= MAX_SENDER_ID
      ensures joined.Some? ==> joined.value.id == old(voice.nextId) && joined.value.token == q.token
    {
      if c !in seats {
        return None;
      }
      if voice.nextId > MAX_SENDER_ID {
        Disconnect(c);
        return None;
      }
      var r := voice.Join(VoiceEntry(seats[c], c, q));
      return Some(r.value);
    }

    method VoiceSalt(c: string, salt: string) returns (known: bool)
      modifies voice
      ensures State() == Spec.VoiceSalt(old(State()), c, salt)
      ensures known <==> c in old(voice.clients.items)
    {
      known := voice.SetSalt(c, salt);
    }

    method VoiceLeave(c: string) returns (left: Option<Relay.Participant>)
      modifies voice
      ensures State() == Spec.VoiceLeave(old(State()), c)
      ensures left == if c in old(voice.clients.items) then Some(old(voice.clients.items)[c]) else None
    {
      left := voice.Leave(c);
    }
  }
}
