/** The relay's rate limit as numbers: windows that start when the last one is over, and what they allow over time. */
module RelayPace {
  const RATE_LIMIT_PACKETS: nat := 60
  const RATE_LIMIT_WINDOW: real := 1.0

  /** When the present window began, and how many packets it has let through. */
  datatype Window = Window(start: real, count: nat)

  const UNUSED: Window := Window(0.0, 0)

  function Tick(w: Window, now: real): (Window, bool) {
    if now - w.start >= RATE_LIMIT_WINDOW then (Window(now, 1), true)
    else if w.count >= RATE_LIMIT_PACKETS then (w, false)
    else (Window(w.start, w.count + 1), true)
  }

  /** The moments at which packets were let through, and the start of the window each of them fell into. */
  datatype Passage = Passage(moments: seq<real>, starts: seq<real>)

  const NOTHING_PASSED: Passage := Passage([], [])

  function Noted(p: Passage, w: Window, now: real): Passage {
    Passage(p.moments + [now], p.starts + [w.start])
  }

  /** Sixty places on, another window has begun: no window lets more than sixty through. */
  ghost predicate SpacedStarts(starts: seq<real>) {
    forall i, j :: 0 <= i < |starts| && 0 <= j < |starts| && j - i >= RATE_LIMIT_PACKETS
                   ==> starts[j] >= starts[i] + RATE_LIMIT_WINDOW
  }

  ghost predicate Paced(p: Passage) {
    && |p.starts| == |p.moments| && SpacedStarts(p.starts)
    && forall k :: 0 <= k < |p.moments| ==> p.starts[k] <= p.moments[k] < p.starts[k] + RATE_LIMIT_WINDOW
  }

  /** The newest `count` passed in the present window, all others in windows that were over when it began. */
  ghost predicate Steady(w: Window, p: Passage, latest: real) {
    && Paced(p) && w.count <= |p.moments| && w.count <= RATE_LIMIT_PACKETS && 0.0 <= w.start <= latest
    && (forall k :: |p.moments| - w.count <= k < |p.moments| ==> p.starts[k] == w.start)
    && (forall k :: 0 <= k < |p.moments| - w.count ==> p.starts[k] <= w.start - RATE_LIMIT_WINDOW)
  }

  lemma TickKeepsSteady(w: Window, p: Passage, latest: real, now: real)
    requires Steady(w, p, latest) && latest <= now && Tick(w, now).1
    ensures Steady(Tick(w, now).0, Noted(p, Tick(w, now).0, now), now)
  {
    var after := Noted(p, Tick(w, now).0, now);
    assert forall k :: 0 <= k < |p.moments| ==> after.moments[k] == p.moments[k] && after.starts[k] == p.starts[k];
  }

  lemma LaterIsSteady(w: Window, p: Passage, latest: real, now: real)
    requires Steady(w, p, latest) && latest <= now
    ensures Steady(w, p, now)
  {
  }

  lemma NewIsSteady(latest: real)
    requires latest >= 0.0
    ensures Steady(UNUSED, NOTHING_PASSED, latest)
  {
  }

  /** A packet is refused only when sixty have been let through within the last second. */
  lemma RefusedOnlyWhenFull(w: Window, p: Passage, latest: real, now: real)
    requires Steady(w, p, latest) && latest <= now && !Tick(w, now).1
    ensures |p.moments| >= RATE_LIMIT_PACKETS
    ensures forall k :: |p.moments| - RATE_LIMIT_PACKETS <= k < |p.moments| ==> p.moments[k] > now - RATE_LIMIT_WINDOW
  {
    assert w.count == RATE_LIMIT_PACKETS;
    assert forall k :: |p.moments| - w.count <= k < |p.moments|
                       ==> p.starts[k] == w.start && p.starts[k] <= p.moments[k];
  }

  /** So any two packets let through 120 or more places apart are more than a second apart. */
  lemma AtMost120PerSecond(p: Passage, i: nat, j: nat)
    requires Paced(p) && i < |p.moments| && j < |p.moments| && j - i >= 2 * RATE_LIMIT_PACKETS
    ensures p.moments[j] - p.moments[i] > RATE_LIMIT_WINDOW
  {
    assert p.starts[i + RATE_LIMIT_PACKETS] >= p.starts[i] + RATE_LIMIT_WINDOW;
    assert p.starts[j] >= p.starts[i + RATE_LIMIT_PACKETS] + RATE_LIMIT_WINDOW;
  }
}

/** The host's voice relay as a value: who is in, where they are, and to whom a datagram goes. */
module RelaySpec {
  import opened Common
  import opened VoicePackets
  import opened OrderedDict
  import opened RelayPace

  const TOKEN_BYTES: nat := 16
  const SALT_CHARS: nat := 64

  datatype Address = Address(ip: string, port: nat)

  /** A datagram as the relay sees it: a clear header and bytes it cannot read. */
  datatype Packet = Short | Packet(header: Header, body: Bytes)

  /** `ip` is the address of the TCP connection; `pace` is the window of the rate limit. */
  datatype Participant = Participant(client: string, id: nat, token: Bytes, ip: string, codec: string,
                                     publicKey: string, username: string, room: string, salt: string,
                                     address: Option<Address>, pace: Window)

  datatype Relay = Relay(nextId: nat, clients: Dict<string, Participant>, senders: map<nat, string>, rejected: nat,
                         latest: real)

  const EMPTY: Relay := Relay(1, Dict([], map[]), map[], 0, 0.0)

  // Signalling.

  /** The codec of the first in line who is in the room and has one, or else the proposed one. */
  function RoomCodec(line: seq<string>, items: map<string, Participant>, room: string, proposed: string): string {
    if line == [] then proposed
    else if line[0] in items && items[line[0]].room == room && items[line[0]].codec != "" then items[line[0]].codec
    else RoomCodec(line[1..], items, room, proposed)
  }

  function Leave(r: Relay, c: string): Relay {
    if c in r.clients.items then r.(clients := Remove(r.clients, c), senders := r.senders - {r.clients.items[c].id})
    else r
  }

  /** What a client brings when it joins voice. */
  datatype Entry = Entry(client: string, username: string, room: string, ip: string, salt: string, codec: string,
                         publicKey: string, token: Bytes)

  function Newcomer(r: Relay, e: Entry): Participant {
    Participant(e.client, r.nextId, e.token, e.ip, RoomCodec(r.clients.order, r.clients.items, e.room, e.codec),
                e.publicKey, e.username, e.room, e.salt, None, UNUSED)
  }

  function Add(r: Relay, p: Participant): Relay {
    r.(nextId := r.nextId + 1, clients := Put(r.clients, p.client, p), senders := r.senders[p.id := p.client])
  }

  /** An existing entry is renewed: it goes first, even when no id is left for the new one. */
  function Join(r: Relay, e: Entry): Relay {
    var left := Leave(r, e.client);
    if left.nextId > MAX_SENDER_ID then left else Add(left, Newcomer(left, e))
  }

  function Edit(r: Relay, c: string, p: Participant): Relay {
    r.(clients := Put(r.clients, c, p))
  }

  function Move(r: Relay, c: string, room: string): Relay {
    if c in r.clients.items then Edit(r, c, r.clients.items[c].(room := room)) else r
  }

  function Rename(r: Relay, c: string, username: string): Relay {
    if c in r.clients.items then Edit(r, c, r.clients.items[c].(username := username)) else r
  }

  function SetSalt(r: Relay, c: string, salt: string): Relay {
    var kept := if |salt| > SALT_CHARS then salt[..SALT_CHARS] else salt;
    if c in r.clients.items then Edit(r, c, r.clients.items[c].(salt := kept)) else r
  }

  // The voice path.

  predicate Admissible(p: Packet) {
    && p.Packet? && HEADER_BYTES + |p.body| <= MAX_DATAGRAM_BYTES
    && p.header.version == PROTOCOL_VERSION && p.header.kind in {TYPE_AUDIO, TYPE_HELLO}
  }

  /** The participant a packet claims to come from, if it was sent by that participant's machine. */
  function Claimed(r: Relay, p: Packet, from: Address): Option<Participant> {
    if Admissible(p) && p.header.sender in r.senders && r.senders[p.header.sender] in r.clients.items
       && r.clients.items[r.senders[p.header.sender]].ip == from.ip
    then Some(r.clients.items[r.senders[p.header.sender]]) else None
  }

  predicate CarriesToken(p: Packet, token: Bytes) {
    p.Packet? && |p.body| >= TOKEN_BYTES && p.body[..TOKEN_BYTES] == token
  }

  /** Whether `c` hears `peer`: another participant, in the same room, with a bound address. */
  predicate Hears(items: map<string, Participant>, c: string, peer: Participant) {
    c in items && items[c].room == peer.room && items[c].id != peer.id && items[c].address.Some?
  }

  function Targets(line: seq<string>, items: map<string, Participant>, peer: Participant): seq<Address> {
    if line == [] then []
    else
      var last := line[|line| - 1];
      Targets(line[..|line| - 1], items, peer) + (if Hears(items, last, peer) then [items[last].address.value] else [])
  }

  function Rejected(r: Relay, now: real): Relay {
    r.(rejected := r.rejected + 1, latest := now)
  }

  predicate Forwards(peer: Participant, p: Packet, from: Address, now: real) {
    p.Packet? && p.header.kind == TYPE_AUDIO && peer.address == Some(from) && Tick(peer.pace, now).1
  }

  function Handle(r: Relay, p: Packet, from: Address, now: real): (Relay, seq<Address>) {
    match Claimed(r, p, from)
    case None => (Rejected(r, now), [])
    case Some(peer) =>
      if p.Packet? && p.header.kind == TYPE_HELLO && CarriesToken(p, peer.token) then
        (Edit(r.(latest := now), peer.client, peer.(address := Some(from))), [])
      else if Forwards(peer, p, from, now) then
        (Edit(r.(latest := now), peer.client, peer.(pace := Tick(peer.pace, now).0)),
         Targets(r.clients.order, r.clients.items, peer))
      else (Rejected(r, now), [])
  }

  /** The listeners of a sender, in the order in which they joined. */
  function Listeners(line: seq<string>, items: map<string, Participant>, peer: Participant): (l: seq<string>)
    ensures forall c :: c in l <==> c in line && Hears(items, c, peer)
    ensures Distinct(line) ==> Distinct(l)
  {
    if line == [] then []
    else
      assert line == line[..|line| - 1] + [line[|line| - 1]];
      var last := line[|line| - 1];
      Listeners(line[..|line| - 1], items, peer) + (if Hears(items, last, peer) then [last] else [])
  }

  /** A forwarded packet goes out once to each listener, at that listener's bound address, and to nobody else. */
  lemma {:induction false} TargetsAreListeners(line: seq<string>, items: map<string, Participant>, peer: Participant)
    ensures |Targets(line, items, peer)| == |Listeners(line, items, peer)|
    ensures forall k :: 0 <= k < |Listeners(line, items, peer)| ==>
                          Hears(items, Listeners(line, items, peer)[k], peer)
                          && Targets(line, items, peer)[k] == items[Listeners(line, items, peer)[k]].address.value
  {
    if line == [] {
    } else {
      TargetsAreListeners(line[..|line| - 1], items, peer);
    }
  }

  /** Every datagram is counted as rejected unless it bound an address or was forwarded. */
  lemma RejectedOtherwise(r: Relay, p: Packet, from: Address, now: real)
    ensures var (after, _) := Handle(r, p, from, now);
            var useful := match Claimed(r, p, from)
              case None => false
              case Some(peer) => if p.header.kind == TYPE_HELLO then CarriesToken(p, peer.token)
              else Forwards(peer, p, from, now);
            after.rejected == r.rejected + (if useful then 0 else 1)
  {
  }

  // What each operation does to the table, and to nobody else's entry.

  ghost predicate OthersStay(r: Relay, after: Relay, c: string) {
    && (forall d :: d in r.clients.items && d != c
                    ==> d in after.clients.items && after.clients.items[d] == r.clients.items[d])
    && (forall d :: d in after.clients.items && d != c ==> d in r.clients.items)
  }

  /** Whoever joins has the next id, exactly what it brought, and no address yet; with no id left it is out. */
  lemma JoinEnters(r: Relay, e: Entry)
    ensures var after := Join(r, e);
            && OthersStay(r, after, e.client)
            && (e.client in after.clients.items <==> r.nextId <= MAX_SENDER_ID)
            && (e.client in after.clients.items ==>
                  var p := after.clients.items[e.client];
                  && p.client == e.client && p.id == r.nextId && p.token == e.token && p.ip == e.ip
                  && p.publicKey == e.publicKey && p.username == e.username && p.room == e.room && p.salt == e.salt
                  && p.address == None && after.nextId == r.nextId + 1)
  {
  }

  lemma LeaveExits(r: Relay, c: string)
    ensures OthersStay(r, Leave(r, c), c) && c !in Leave(r, c).clients.items
  {
  }

  /** A change of room, of name or of salt changes that one detail of that one entry. */
  lemma DetailsChange(r: Relay, c: string, room: string, username: string, salt: string)
    requires c in r.clients.items
    ensures var p := r.clients.items[c];
            && OthersStay(r, Move(r, c, room), c) && c in Move(r, c, room).clients.items
            && Move(r, c, room).clients.items[c] == p.(room := room)
            && OthersStay(r, Rename(r, c, username), c) && c in Rename(r, c, username).clients.items
            && Rename(r, c, username).clients.items[c] == p.(username := username)
            && OthersStay(r, SetSalt(r, c, salt), c) && c in SetSalt(r, c, salt).clients.items
            && var after := SetSalt(r, c, salt).clients.items[c];
            && after == p.(salt := after.salt) && after.salt <= salt
            && |after.salt| == (if |salt| <= 64 then |salt| else 64)
  {
  }

  // What every step keeps.

  /** The tables agree on this participant, and its bound address is on its own machine. */
  ghost predicate Sound(c: string, p: Participant, senders: map<nat, string>, nextId: nat) {
    && p.client == c && 1 <= p.id < nextId && p.id in senders && senders[p.id] == c
    && (p.address.Some? ==> p.address.value.ip == p.ip)
  }

  ghost predicate AllSound(r: Relay) {
    forall c :: c in r.clients.items ==> Sound(c, r.clients.items[c], r.senders, r.nextId)
  }

  ghost predicate SendersMatch(r: Relay) {
    forall i :: i in r.senders ==> r.senders[i] in r.clients.items && r.clients.items[r.senders[i]].id == i
  }

  /** The two tables are inverse views of the same participants, and all ids in them were handed out before the next. */
  ghost predicate Inv(r: Relay) {
    r.clients.Valid() && AllSound(r) && SendersMatch(r) && r.nextId >= 1 && r.latest >= 0.0
  }

  /** A part of a sequence, in the same order. */
  predicate Subsequence(part: seq<string>, whole: seq<string>) {
    part == []
    || (whole != []
        && (Subsequence(part, whole[..|whole| - 1])
            || (part[|part| - 1] == whole[|whole| - 1]
                && Subsequence(part[..|part| - 1], whole[..|whole| - 1]))))
  }

  lemma {:induction false} ListenersInOrder(line: seq<string>, items: map<string, Participant>, peer: Participant)
    ensures Subsequence(Listeners(line, items, peer), line)
  {
    if line == [] {
    } else {
      var front, last := line[..|line| - 1], line[|line| - 1];
      ListenersInOrder(front, items, peer);
      if Hears(items, last, peer) {
        assert Listeners(line, items, peer)[..|Listeners(line, items, peer)| - 1] == Listeners(front, items, peer);
      } else {
        assert Listeners(line, items, peer) == Listeners(front, items, peer);
      }
    }
  }

  /** Everybody else in the room with a bound address. */
  ghost predicate IsRoomOf(r: Relay, c: string, heard: seq<string>) {
    && c in r.clients.items && Distinct(heard) && Subsequence(heard, r.clients.order)
    && forall d :: d in heard <==> && d in r.clients.items && d != c && r.clients.items[d].address.Some?
                                   && r.clients.items[d].room == r.clients.items[c].room
  }

  /**
   Some addresses are those of everybody else in a client's room who has bound one: one each, in the order in which
   they joined.
  */
  ghost predicate ReachesRoom(r: Relay, c: string, out: seq<Address>) {
    exists heard :: IsRoomOf(r, c, heard) && |out| == |heard|
                    && forall k :: 0 <= k < |out| ==> heard[k] in r.clients.items
                                                      && Some(out[k]) == r.clients.items[heard[k]].address
  }

  lemma ListenersAreRoom(r: Relay, c: string)
    requires Inv(r) && c in r.clients.items
    ensures IsRoomOf(r, c, Listeners(r.clients.order, r.clients.items, r.clients.items[c]))
  {
    var peer := r.clients.items[c];
    var heard := Listeners(r.clients.order, r.clients.items, peer);
    ListenersInOrder(r.clients.order, r.clients.items, peer);
    assert Sound(c, peer, r.senders, r.nextId);
    forall d ensures d in heard <==> && d in r.clients.items && d != c && r.clients.items[d].address.Some?
                                     && r.clients.items[d].room == peer.room
    {
      if d in r.clients.items {
        assert Sound(d, r.clients.items[d], r.senders, r.nextId);
      }
    }
  }

  /** Audio from a bound address within its pace reaches exactly the room; anything else reaches nobody. */
  lemma HandleReachesTheRoom(r: Relay, p: Packet, from: Address, now: real)
    requires Inv(r)
    ensures var out := Handle(r, p, from, now).1;
            match Claimed(r, p, from)
            case None => out == []
            case Some(peer) => if Forwards(peer, p, from, now) then ReachesRoom(r, peer.client, out) else out == []
  {
    if Claimed(r, p, from).Some? {
      var peer := Claimed(r, p, from).value;
      assert Sound(peer.client, peer, r.senders, r.nextId);
      ListenersAreRoom(r, peer.client);
      TargetsAreListeners(r.clients.order, r.clients.items, peer);
    }
  }

  lemma WaitKeeps(r: Relay, now: real)
    requires Inv(r) && r.latest <= now
    ensures Inv(r.(latest := now))
  {
  }

  lemma EditKeeps(r: Relay, c: string, p: Participant)
    requires Inv(r) && c in r.clients.items
    requires p.id == r.clients.items[c].id && Sound(c, p, r.senders, r.nextId)
    ensures Inv(Edit(r, c, p))
  {
    PutValid(r.clients, c, p);
  }

  lemma LeaveKeepsSound(r: Relay, c: string)
    requires AllSound(r) && SendersMatch(r)
    ensures AllSound(Leave(r, c))
  {
    var after := Leave(r, c);
    forall d | d in after.clients.items ensures Sound(d, after.clients.items[d], after.senders, after.nextId) {
      assert Sound(d, r.clients.items[d], r.senders, r.nextId);
      if c in r.clients.items {
        assert Sound(c, r.clients.items[c], r.senders, r.nextId);
      }
    }
  }

  lemma LeaveKeepsMatch(r: Relay, c: string)
    requires AllSound(r) && SendersMatch(r)
    ensures SendersMatch(Leave(r, c))
  {
    if c in r.clients.items {
      assert Sound(c, r.clients.items[c], r.senders, r.nextId);
    }
  }

  lemma LeaveKeeps(r: Relay, c: string)
    requires Inv(r)
    ensures Inv(Leave(r, c)) && c !in Leave(r, c).clients.items
    ensures Leave(r, c).nextId == r.nextId && Leave(r, c).latest == r.latest
  {
    RemoveValid(r.clients, c);
    LeaveKeepsSound(r, c);
    LeaveKeepsMatch(r, c);
  }

  lemma IdsAreBelowNext(r: Relay, i: nat)
    requires AllSound(r) && SendersMatch(r) && i in r.senders
    ensures i < r.nextId
  {
    assert Sound(r.senders[i], r.clients.items[r.senders[i]], r.senders, r.nextId);
  }

  /** A new id above all others disturbs nobody. */
  lemma StaysSound(r: Relay, c: string, newcomer: string)
    requires AllSound(r) && SendersMatch(r) && c in r.clients.items
    ensures Sound(c, r.clients.items[c], r.senders[r.nextId := newcomer], r.nextId + 1)
  {
    assert Sound(c, r.clients.items[c], r.senders, r.nextId);
  }

  lemma AddKeeps(r: Relay, p: Participant)
    requires Inv(r) && p.client !in r.clients.items && p.id == r.nextId && p.address == None && p.pace == UNUSED
    ensures Inv(Add(r, p))
  {
    PutValid(r.clients, p.client, p);
    var after := Add(r, p);
    forall c | c in after.clients.items ensures Sound(c, after.clients.items[c], after.senders, after.nextId) {
      if c != p.client {
        StaysSound(r, c, p.client);
      }
    }
    forall i | i in after.senders
      ensures after.senders[i] in after.clients.items && after.clients.items[after.senders[i]].id == i
    {
      if i in r.senders {
        IdsAreBelowNext(r, i);
      }
    }
  }

  lemma JoinKeeps(r: Relay, e: Entry)
    requires Inv(r)
    ensures Inv(Join(r, e))
  {
    LeaveKeeps(r, e.client);
    var left := Leave(r, e.client);
    if left.nextId <= MAX_SENDER_ID {
      AddKeeps(left, Newcomer(left, e));
    }
  }

  lemma HandleKeeps(r: Relay, p: Packet, from: Address, now: real)
    requires Inv(r) && r.latest <= now
    ensures Inv(Handle(r, p, from, now).0)
  {
    WaitKeeps(r, now);
    var waited := r.(latest := now);
    match Claimed(r, p, from)
    case None =>
    case Some(peer) =>
      assert Sound(peer.client, peer, waited.senders, waited.nextId);
      if p.header.kind == TYPE_HELLO && CarriesToken(p, peer.token) {
        EditKeeps(waited, peer.client, peer.(address := Some(from)));
      } else if Forwards(peer, p, from, now) {
        EditKeeps(waited, peer.client, peer.(pace := Tick(peer.pace, now).0));
      }
  }

  /** The voice path changes neither who is in nor where or under which name. */
  lemma HandleMovesNobody(r: Relay, p: Packet, from: Address, now: real)
    requires Inv(r)
    ensures var before, after := r.clients.items, Handle(r, p, from, now).0.clients.items;
            && after.Keys == before.Keys
            && forall c :: c in before ==> after[c].room == before[c].room && after[c].username == before[c].username
  {
    if Claimed(r, p, from).Some? {
      var peer := Claimed(r, p, from).value;
      assert Sound(peer.client, peer, r.senders, r.nextId);
    }
  }
}

/** What holds over every run of the relay, and what of it a change of room gives up. */
module RelayRuns {
  import opened Common
  import opened VoicePackets
  import opened RelayPace
  import opened RelaySpec

  datatype Event =
    | Joins(entry: Entry)
    | Leaves(client: string)
    | Moves(client: string, room: string)
    | Renames(client: string, username: string)
    | Salts(client: string, salt: string)
    | Arrives(packet: Packet, from: Address, now: real)

  /** The clock never goes back: an arrival dated before the last one does not happen. */
  function Arrive(r: Relay, p: Packet, from: Address, now: real): Relay {
    if now < r.latest then r else Handle(r, p, from, now).0
  }

  function Step(r: Relay, e: Event): Relay {
    match e
    case Joins(entry) => Join(r, entry)
    case Leaves(c) => Leave(r, c)
    case Moves(c, room) => Move(r, c, room)
    case Renames(c, username) => Rename(r, c, username)
    case Salts(c, salt) => SetSalt(r, c, salt)
    case Arrives(p, from, now) => Arrive(r, p, from, now)
  }

  function Run(events: seq<Event>): Relay {
    if events == [] then EMPTY else Step(Run(events[..|events| - 1]), events[|events| - 1])
  }

  lemma MoveKeeps(r: Relay, c: string, room: string)
    requires Inv(r)
    ensures Inv(Move(r, c, room))
  {
    if c in r.clients.items {
      EditKeeps(r, c, r.clients.items[c].(room := room));
    }
  }

  lemma RenameKeeps(r: Relay, c: string, username: string)
    requires Inv(r)
    ensures Inv(Rename(r, c, username))
  {
    if c in r.clients.items {
      EditKeeps(r, c, r.clients.items[c].(username := username));
    }
  }

  lemma SaltKeeps(r: Relay, c: string, salt: string)
    requires Inv(r)
    ensures Inv(SetSalt(r, c, salt))
  {
    if c in r.clients.items {
      EditKeeps(r, c, SetSalt(r, c, salt).clients.items[c]);
    }
  }

  lemma DetailKeeps(r: Relay, e: Event)
    requires Inv(r) && (e.Moves? || e.Renames? || e.Salts?)
    ensures Inv(Step(r, e))
  {
    match e
    case Moves(c, room) => MoveKeeps(r, c, room);
    case Renames(c, username) => RenameKeeps(r, c, username);
    case Salts(c, salt) => SaltKeeps(r, c, salt);
  }

  lemma SignalKeeps(r: Relay, e: Event)
    requires Inv(r) && (e.Joins? || e.Leaves?)
    ensures Inv(Step(r, e))
  {
    match e
    case Joins(entry) => JoinKeeps(r, entry);
    case Leaves(c) => LeaveKeeps(r, c);
  }

  lemma ArrivalKeeps(r: Relay, p: Packet, from: Address, now: real)
    requires Inv(r)
    ensures Inv(Arrive(r, p, from, now))
  {
    if r.latest <= now {
      HandleKeeps(r, p, from, now);
    }
  }

  lemma StepKeeps(r: Relay, e: Event)
    requires Inv(r)
    ensures Inv(Step(r, e))
  {
    match e
    case Joins(_) => SignalKeeps(r, e);
    case Leaves(_) => SignalKeeps(r, e);
    case Arrives(p, from, now) => ArrivalKeeps(r, p, from, now);
    case _ => DetailKeeps(r, e);
  }

  lemma {:induction false} EveryRunKeeps(events: seq<Event>)
    ensures Inv(Run(events))
  {
    if events == [] {
    } else {
      EveryRunKeeps(events[..|events| - 1]);
      StepKeeps(Run(events[..|events| - 1]), events[|events| - 1]);
    }
  }

  // The pace of every sender over a whole run.

  predicate ForwardsNow(r: Relay, e: Event, id: nat) {
    && e.Arrives? && r.latest <= e.now && Claimed(r, e.packet, e.from).Some?
    && Claimed(r, e.packet, e.from).value.id == id
    && Forwards(Claimed(r, e.packet, e.from).value, e.packet, e.from, e.now)
  }

  /** What the relay has forwarded for an id in a run: when, and in which window. */
  function Forwarded(events: seq<Event>, id: nat): Passage {
    if events == [] then NOTHING_PASSED
    else
      var r, e := Run(events[..|events| - 1]), events[|events| - 1];
      var before := Forwarded(events[..|events| - 1], id);
      if ForwardsNow(r, e, id) then Noted(before, Tick(Claimed(r, e.packet, e.from).value.pace, e.now).0, e.now)
      else before
  }

  /** The window of whoever has an id now, if anybody. */
  function WindowOf(r: Relay, id: nat): Option<Window> {
    if id in r.senders && r.senders[id] in r.clients.items then Some(r.clients.items[r.senders[id]].pace) else None
  }

  ghost predicate KeepsPace(r: Relay, p: Passage, id: nat) {
    && Paced(p) && (id >= r.nextId ==> p == NOTHING_PASSED)
    && (WindowOf(r, id).Some? ==> Steady(WindowOf(r, id).value, p, r.latest))
  }

  lemma LeaveWindows(r: Relay, c: string, id: nat)
    requires Inv(r)
    ensures WindowOf(Leave(r, c), id) in {None, WindowOf(r, id)}
  {
  }

  lemma JoinWindows(r: Relay, e: Entry, id: nat)
    requires Inv(r)
    ensures Join(r, e).latest == r.latest && Join(r, e).nextId >= r.nextId
    ensures WindowOf(Join(r, e), id) in {None, WindowOf(r, id)}
            || (id == r.nextId && WindowOf(Join(r, e), id) == Some(UNUSED))
  {
    LeaveKeeps(r, e.client);
    LeaveWindows(r, e.client, id);
    var left := Leave(r, e.client);
    if left.nextId <= MAX_SENDER_ID {
      assert id in left.senders ==> left.senders[id] != e.client;
    }
  }

  lemma EditWindows(r: Relay, c: string, p: Participant, id: nat)
    requires Inv(r) && c in r.clients.items && p.pace == r.clients.items[c].pace
    ensures WindowOf(Edit(r, c, p), id) == WindowOf(r, id)
  {
  }

  lemma ArriveWindows(r: Relay, p: Packet, from: Address, now: real, id: nat)
    requires Inv(r) && r.latest <= now
    ensures WindowOf(Arrive(r, p, from, now), id)
         == if ForwardsNow(r, Arrives(p, from, now), id) then Some(Tick(Claimed(r, p, from).value.pace, now).0)
            else WindowOf(r, id)
    ensures ForwardsNow(r, Arrives(p, from, now), id) ==> WindowOf(r, id) == Some(Claimed(r, p, from).value.pace)
  {
    if Claimed(r, p, from).Some? {
      var peer := Claimed(r, p, from).value;
      assert Sound(peer.client, peer, r.senders, r.nextId);
    }
  }

  lemma ArrivePaces(r: Relay, p: Packet, from: Address, now: real, id: nat, before: Passage)
    requires Inv(r) && KeepsPace(r, before, id) && r.latest <= now
    ensures var e := Arrives(p, from, now);
            var after := if ForwardsNow(r, e, id) then Noted(before, Tick(Claimed(r, p, from).value.pace, now).0, now)
                         else before;
            KeepsPace(Arrive(r, p, from, now), after, id)
  {
    ArriveWindows(r, p, from, now, id);
    if WindowOf(r, id).Some? {
      LaterIsSteady(WindowOf(r, id).value, before, r.latest, now);
      if ForwardsNow(r, Arrives(p, from, now), id) {
        TickKeepsSteady(WindowOf(r, id).value, before, r.latest, now);
      }
    }
  }

  lemma StepPaces(r: Relay, e: Event, id: nat, before: Passage)
    requires Inv(r) && KeepsPace(r, before, id) && !e.Arrives?
    ensures KeepsPace(Step(r, e), before, id)
  {
    match e
    case Joins(entry) =>
      JoinWindows(r, entry, id);
      NewIsSteady(r.latest);
    case Leaves(c) => LeaveWindows(r, c, id);
    case Moves(c, room) => if c in r.clients.items { EditWindows(r, c, r.clients.items[c].(room := room), id); }
    case Renames(c, name) => if c in r.clients.items { EditWindows(r, c, r.clients.items[c].(username := name), id); }
    case Salts(c, salt) => if c in r.clients.items { EditWindows(r, c, SetSalt(r, c, salt).clients.items[c], id); }
  }

  lemma {:induction false} EveryRunKeepsPace(events: seq<Event>, id: nat)
    ensures KeepsPace(Run(events), Forwarded(events, id), id)
  {
    if events == [] {
    } else {
      var front, e := events[..|events| - 1], events[|events| - 1];
      EveryRunKeeps(front);
      EveryRunKeepsPace(front, id);
      if e.Arrives? && Run(front).latest <= e.now {
        ArrivePaces(Run(front), e.packet, e.from, e.now, id, Forwarded(front, id));
      } else if !e.Arrives? {
        StepPaces(Run(front), e, id, Forwarded(front, id));
      }
    }
  }

  /** A frame of voice as a participant sends it. */
  function Voice(id: nat, sequence: nat, stamp: nat, body: Bytes): Packet {
    Packet(Header(PROTOCOL_VERSION, TYPE_AUDIO, id, sequence, stamp), body)
  }

  /** The newest sixty of some moments lie within the last second. */
  predicate SixtyWithinASecond(moments: seq<real>, now: real) {
    |moments| >= 60 && forall k :: |moments| - 60 <= k < |moments| ==> moments[k] > now - 1.0
  }

  /**
   In every run, voice from the bound address of a participant reaches the room, unless sixty of that participant's
   packets were forwarded within the last second.
  */
  lemma AudioIsRelayed(events: seq<Event>, r: Relay, c: string, sequence: nat, stamp: nat, body: Bytes, from: Address,
                       now: real)
    requires r == Run(events) && c in r.clients.items && r.clients.items[c].address == Some(from) && r.latest <= now
    requires HEADER_BYTES + |body| <= MAX_DATAGRAM_BYTES
    ensures var p := Voice(r.clients.items[c].id, sequence, stamp, body);
            || ReachesRoom(r, c, Handle(r, p, from, now).1)
            || SixtyWithinASecond(Forwarded(events, r.clients.items[c].id).moments, now)
  {
    var peer := r.clients.items[c];
    var p := Voice(peer.id, sequence, stamp, body);
    EveryRunKeeps(events);
    EveryRunKeepsPace(events, peer.id);
    assert Sound(c, peer, r.senders, r.nextId);
    assert Claimed(r, p, from) == Some(peer);
    HandleReachesTheRoom(r, p, from, now);
    if !Forwards(peer, p, from, now) {
      RefusedOnlyWhenFull(peer.pace, Forwarded(events, peer.id), r.latest, now);
    }
  }

  /** Of all packets a run has forwarded for an id, any two 120 or more places apart are over a second apart. */
  lemma FloodIsCut(events: seq<Event>, id: nat, i: nat, j: nat)
    requires j < |Forwarded(events, id).moments| && j - i >= 2 * RATE_LIMIT_PACKETS
    ensures Forwarded(events, id).moments[j] - Forwarded(events, id).moments[i] > RATE_LIMIT_WINDOW
  {
    EveryRunKeepsPace(events, id);
    AtMost120PerSecond(Forwarded(events, id), i, j);
  }

  // Ids.

  /** The id that joining at step `k` was given, or none when they are exhausted. */
  function GivenId(events: seq<Event>, k: nat): Option<nat>
    requires k < |events|
  {
    var next := Run(events[..k]).nextId;
    if events[k].Joins? && next <= MAX_SENDER_ID then Some(next) else None
  }

  lemma NextIdAfter(events: seq<Event>, k: nat)
    requires k < |events|
    ensures Run(events[..k + 1]).nextId == Run(events[..k]).nextId + (if GivenId(events, k).Some? then 1 else 0)
  {
    assert events[..k + 1][..k] == events[..k];
    assert Run(events[..k + 1]) == Step(Run(events[..k]), events[k]);
  }

  lemma {:induction false} NextIdGrows(events: seq<Event>, i: nat, j: nat)
    requires i < j <= |events|
    ensures Run(events[..i]).nextId + (if GivenId(events, i).Some? then 1 else 0) <= Run(events[..j]).nextId
  {
    NextIdAfter(events, j - 1);
    if i < j - 1 {
      NextIdGrows(events, i, j - 1);
    }
  }

  /** Ids are handed out in increasing order over a whole run, so none is ever reused. */
  lemma IdsNeverReused(events: seq<Event>, i: nat, j: nat)
    requires i < j < |events| && GivenId(events, i).Some? && GivenId(events, j).Some?
    ensures 1 <= GivenId(events, i).value < GivenId(events, j).value <= MAX_SENDER_ID
  {
    NextIdGrows(events, i, j);
    EveryRunKeeps(events[..i]);
  }

  // Where a bound address comes from.

  /** A participant with this id and this token. */
  predicate Present(r: Relay, c: string, id: nat, token: Bytes) {
    c in r.clients.items && r.clients.items[c].id == id && r.clients.items[c].token == token
  }

  predicate Bound(r: Relay, c: string, id: nat, token: Bytes, address: Address) {
    Present(r, c, id, token) && r.clients.items[c].address == Some(address)
  }

  /** A client's joining, by which it was given this id and this token. */
  predicate Enrols(events: seq<Event>, j: nat, c: string, id: nat, token: Bytes) {
    && j < |events| && events[j].Joins? && events[j].entry.client == c && events[j].entry.token == token
    && GivenId(events, j) == Some(id)
  }

  /** A hello that names this id and carries this token, sent from this address. */
  predicate Binds(e: Event, id: nat, token: Bytes, address: Address) {
    && e.Arrives? && e.from == address && Admissible(e.packet)
    && e.packet.header.kind == TYPE_HELLO && e.packet.header.sender == id && CarriesToken(e.packet, token)
  }

  lemma JoinEnrols(r: Relay, e: Entry, c: string, id: nat, token: Bytes)
    requires Present(Join(r, e), c, id, token)
    ensures Present(r, c, id, token) || (e.client == c && e.token == token && r.nextId == id <= MAX_SENDER_ID)
  {
  }

  lemma ArriveEnrolsNobody(r: Relay, p: Packet, from: Address, now: real, c: string, id: nat, token: Bytes)
    requires Inv(r) && Present(Arrive(r, p, from, now), c, id, token)
    ensures Present(r, c, id, token)
  {
    if Claimed(r, p, from).Some? {
      var peer := Claimed(r, p, from).value;
      assert Sound(peer.client, peer, r.senders, r.nextId);
    }
  }

  lemma StepEnrols(r: Relay, e: Event, c: string, id: nat, token: Bytes)
    requires Inv(r) && Present(Step(r, e), c, id, token)
    ensures || Present(r, c, id, token)
            || (e.Joins? && e.entry.client == c && e.entry.token == token && r.nextId == id <= MAX_SENDER_ID)
  {
    match e
    case Joins(entry) => JoinEnrols(r, entry, c, id, token);
    case Leaves(_) =>
    case Moves(_, _) =>
    case Renames(_, _) =>
    case Salts(_, _) =>
    case Arrives(p, from, now) => ArriveEnrolsNobody(r, p, from, now, c, id, token);
  }

  lemma EnrolsInLonger(events: seq<Event>, n: nat, j: nat, c: string, id: nat, token: Bytes)
    requires n <= |events| && Enrols(events[..n], j, c, id, token)
    ensures Enrols(events, j, c, id, token)
  {
    assert events[..n][..j] == events[..j];
  }

  lemma JoiningEnrols(events: seq<Event>, j: nat, c: string, id: nat, token: Bytes)
    requires j < |events| && events[j].Joins? && events[j].entry.client == c && events[j].entry.token == token
    requires Run(events[..j]).nextId == id <= MAX_SENDER_ID
    ensures Enrols(events, j, c, id, token)
  {
  }

  /** Whoever is in voice has the id and the token of an earlier joining. */
  lemma {:induction false} PresentHasJoined(events: seq<Event>, c: string, id: nat, token: Bytes)
    requires Present(Run(events), c, id, token)
    ensures exists j: nat :: Enrols(events, j, c, id, token)
  {
    var front, last := events[..|events| - 1], |events| - 1;
    EveryRunKeeps(front);
    StepEnrols(Run(front), events[last], c, id, token);
    if Present(Run(front), c, id, token) {
      PresentHasJoined(front, c, id, token);
      var j: nat :| Enrols(front, j, c, id, token);
      EnrolsInLonger(events, |front|, j, c, id, token);
    } else {
      JoiningEnrols(events, last, c, id, token);
    }
  }

  /**
   A hello from the participant's own machine with its id and token does bind the address it comes from, again and
   again.
  */
  lemma HelloBinds(r: Relay, p: Packet, from: Address, now: real, c: string, id: nat, token: Bytes)
    requires Inv(r) && r.latest <= now && Present(r, c, id, token) && r.clients.items[c].ip == from.ip
    requires Binds(Arrives(p, from, now), id, token, from)
    ensures Bound(Arrive(r, p, from, now), c, id, token, from)
  {
    assert Sound(c, r.clients.items[c], r.senders, r.nextId);
    assert Claimed(r, p, from) == Some(r.clients.items[c]);
  }

  /** Such a hello is made of the id and the token, whatever else it carries. */
  lemma HelloIsMade(id: nat, sequence: nat, stamp: nat, token: Bytes, rest: Bytes, from: Address, now: real)
    requires |token| == TOKEN_BYTES && HEADER_BYTES + |token| + |rest| <= MAX_DATAGRAM_BYTES
    ensures Binds(Arrives(Packet(Header(PROTOCOL_VERSION, TYPE_HELLO, id, sequence, stamp), token + rest), from, now),
                  id,
                  token, from)
  {
    assert (token + rest)[..TOKEN_BYTES] == token;
  }

  /** Where the last such hello came from since the participant was given its id, if there was one. */
  function LastHello(events: seq<Event>, c: string, id: nat, token: Bytes, ip: string): Option<Address> {
    if events == [] then None
    else
      var r, e := Run(events[..|events| - 1]), events[|events| - 1];
      if e.Joins? && e.entry.client == c && r.nextId == id then None
      else if e.Arrives? && r.latest <= e.now && e.from.ip == ip && Binds(e, id, token, e.from) then Some(e.from)
      else LastHello(events[..|events| - 1], c, id, token, ip)
  }

  /** What a step does to the address of a participant who is there after it. */
  ghost predicate AddressFollows(r: Relay, e: Event, after: Relay, c: string) {
    c in after.clients.items ==>
      var p := after.clients.items[c];
      if e.Joins? && e.entry.client == c && r.nextId == p.id then p.address == None
      else
        && Present(r, c, p.id, p.token) && r.clients.items[c].ip == p.ip
        && p.address == (if e.Arrives? && r.latest <= e.now && e.from.ip == p.ip && Binds(e, p.id, p.token, e.from)
                         then Some(e.from)
                         else r.clients.items[c].address)
  }

  lemma JoinAddress(r: Relay, e: Entry, c: string)
    requires Inv(r)
    ensures AddressFollows(r, Joins(e), Join(r, e), c)
  {
    JoinEnters(r, e);
    if c in r.clients.items {
      assert Sound(c, r.clients.items[c], r.senders, r.nextId);
    }
  }

  /** What handling a datagram does to one entry. */
  lemma HandleEntries(r: Relay, p: Packet, from: Address, now: real, c: string)
    requires Inv(r) && c in Arrive(r, p, from, now).clients.items
    ensures c in r.clients.items
    ensures var before, after := r.clients.items[c], Arrive(r, p, from, now).clients.items[c];
            && after.(address := before.address, pace := before.pace) == before
            && after.address == (if r.latest <= now && from.ip == before.ip
                                    && Binds(Arrives(p, from, now), before.id, before.token, from)
                                 then Some(from) else before.address)
  {
    if Claimed(r, p, from).Some? {
      var peer := Claimed(r, p, from).value;
      assert Sound(peer.client, peer, r.senders, r.nextId);
    }
    if c in r.clients.items {
      assert Sound(c, r.clients.items[c], r.senders, r.nextId);
    }
  }

  lemma ArriveAddress(r: Relay, p: Packet, from: Address, now: real, c: string)
    requires Inv(r)
    ensures AddressFollows(r, Arrives(p, from, now), Arrive(r, p, from, now), c)
  {
    if c in Arrive(r, p, from, now).clients.items {
      HandleEntries(r, p, from, now, c);
    }
  }

  lemma StepAddress(r: Relay, e: Event, c: string)
    requires Inv(r)
    ensures AddressFollows(r, e, Step(r, e), c)
  {
    match e
    case Joins(entry) => JoinAddress(r, entry, c);
    case Leaves(_) =>
    case Moves(_, _) =>
    case Renames(_, _) =>
    case Salts(_, _) =>
    case Arrives(p, from, now) => ArriveAddress(r, p, from, now, c);
  }

  /**
   In every run, the address bound to a participant is exactly the one its last hello came from since it was given its
   id: from its own machine, with its id and its token; and there is none before the first.
  */
  lemma {:induction false} AddressIsLastHello(events: seq<Event>, c: string)
    requires c in Run(events).clients.items
    ensures var p := Run(events).clients.items[c];
            p.address == LastHello(events, c, p.id, p.token, p.ip)
  {
    if events == [] {
    } else {
      var front, e := events[..|events| - 1], events[|events| - 1];
      EveryRunKeeps(front);
      StepAddress(Run(front), e, c);
      if c in Run(front).clients.items {
        AddressIsLastHello(front, c);
      }
    }
  }

  lemma JoinBindsNothing(r: Relay, e: Entry, c: string, id: nat, token: Bytes, address: Address)
    requires Bound(Join(r, e), c, id, token, address)
    ensures Bound(r, c, id, token, address)
  {
  }

  lemma HandleBinds(r: Relay, p: Packet, from: Address, now: real, c: string, id: nat, token: Bytes, address: Address)
    requires Inv(r) && Bound(Arrive(r, p, from, now), c, id, token, address)
    ensures Bound(r, c, id, token, address) || Binds(Arrives(p, from, now), id, token, address)
  {
    if !Bound(r, c, id, token, address) {
      assert Claimed(r, p, from).Some?;
    }
  }

  /** An address is bound by a hello from a participant who has joined already. */
  lemma StepBinds(r: Relay, e: Event, c: string, id: nat, token: Bytes, address: Address)
    requires Inv(r) && Bound(Step(r, e), c, id, token, address)
    ensures Bound(r, c, id, token, address) || (Binds(e, id, token, address) && Present(r, c, id, token))
  {
    StepEnrols(r, e, c, id, token);
    match e
    case Joins(entry) => JoinBindsNothing(r, entry, c, id, token, address);
    case Leaves(_) =>
    case Moves(_, _) =>
    case Renames(_, _) =>
    case Salts(_, _) =>
    case Arrives(p, from, now) => HandleBinds(r, p, from, now, c, id, token, address);
  }

  /**
   In any run, an address is bound to a participant only if a hello with that participant's id and token came from
   it, after the joining by which the participant was given them.
  */
  lemma {:induction false} BoundCameWithToken(events: seq<Event>, c: string, id: nat, token: Bytes, address: Address)
    requires Bound(Run(events), c, id, token, address)
    ensures exists j: nat, k: nat ::
              Enrols(events, j, c, id, token) && j < k < |events| && Binds(events[k], id, token, address)
  {
    var front, last := events[..|events| - 1], |events| - 1;
    EveryRunKeeps(front);
    StepBinds(Run(front), events[last], c, id, token, address);
    if Bound(Run(front), c, id, token, address) {
      BoundCameWithToken(front, c, id, token, address);
      var j: nat, k: nat :| Enrols(front, j, c, id, token) && j < k < |front| && Binds(front[k], id, token, address);
      EnrolsInLonger(events, |front|, j, c, id, token);
      assert Enrols(events, j, c, id, token) && Binds(events[k], id, token, address);
    } else {
      PresentHasJoined(front, c, id, token);
      var j: nat :| Enrols(front, j, c, id, token);
      EnrolsInLonger(events, |front|, j, c, id, token);
      assert Enrols(events, j, c, id, token) && Binds(events[last], id, token, address);
    }
  }

  // One codec per room.

  ghost predicate Compatible(p: Participant, q: Participant) {
    p.room == q.room && p.codec != "" && q.codec != "" ==> p.codec == q.codec
  }

  ghost predicate OneCodec(r: Relay) {
    forall c, d :: c in r.clients.items && d in r.clients.items ==> Compatible(r.clients.items[c], r.clients.items[d])
  }

  lemma {:induction false} CodecIsTheRooms(line: seq<string>, items: map<string, Participant>, room: string,
                                           proposed: string)
    ensures var codec := RoomCodec(line, items, room, proposed);
            || (codec == proposed
                && forall c :: c in line && c in items && items[c].room == room ==> items[c].codec == "")
            || exists c :: c in line && c in items && items[c].room == room && items[c].codec == codec && codec != ""
  {
    if line != [] && RoomCodec(line, items, room, proposed) == RoomCodec(line[1..], items, room, proposed) {
      CodecIsTheRooms(line[1..], items, room, proposed);
      assert line == [line[0]] + line[1..];
    }
  }

  lemma NewcomerIsCompatible(r: Relay, e: Entry)
    requires r.clients.Valid() && OneCodec(r)
    ensures forall c :: c in r.clients.items ==> Compatible(r.clients.items[c], Newcomer(r, e))
  {
    CodecIsTheRooms(r.clients.order, r.clients.items, e.room, e.codec);
  }

  lemma LeaveKeepsOneCodec(r: Relay, c: string)
    requires OneCodec(r)
    ensures OneCodec(Leave(r, c))
  {
  }

  lemma AddKeepsOneCodec(r: Relay, p: Participant)
    requires OneCodec(r) && forall c :: c in r.clients.items ==> Compatible(r.clients.items[c], p)
    ensures OneCodec(Add(r, p))
  {
    var after := Add(r, p);
    forall c, d | c in after.clients.items && d in after.clients.items
      ensures Compatible(after.clients.items[c], after.clients.items[d])
    {
      if c != p.client && d != p.client {
        assert Compatible(r.clients.items[c], r.clients.items[d]);
      }
    }
  }

  lemma EditKeepsOneCodec(r: Relay, c: string, p: Participant)
    requires OneCodec(r) && c in r.clients.items
    requires p.room == r.clients.items[c].room && p.codec == r.clients.items[c].codec
    ensures OneCodec(Edit(r, c, p))
  {
    var after := Edit(r, c, p);
    forall d, e | d in after.clients.items && e in after.clients.items
      ensures Compatible(after.clients.items[d], after.clients.items[e])
    {
      assert Compatible(r.clients.items[d], r.clients.items[e]);
    }
  }

  lemma JoinKeepsOneCodec(r: Relay, e: Entry)
    requires Inv(r) && OneCodec(r)
    ensures OneCodec(Join(r, e))
  {
    LeaveKeeps(r, e.client);
    LeaveKeepsOneCodec(r, e.client);
    NewcomerIsCompatible(Leave(r, e.client), e);
    if Leave(r, e.client).nextId <= MAX_SENDER_ID {
      AddKeepsOneCodec(Leave(r, e.client), Newcomer(Leave(r, e.client), e));
    }
  }

  lemma ArriveKeepsOneCodec(r: Relay, p: Packet, from: Address, now: real)
    requires Inv(r) && OneCodec(r)
    ensures OneCodec(Arrive(r, p, from, now))
  {
    var after := Arrive(r, p, from, now);
    if after.clients != r.clients {
      var peer := Claimed(r, p, from).value;
      assert Sound(peer.client, peer, r.senders, r.nextId);
      EditKeepsOneCodec(r.(latest := now), peer.client, after.clients.items[peer.client]);
    }
  }

  lemma StepKeepsOneCodec(r: Relay, e: Event)
    requires Inv(r) && OneCodec(r) && !e.Moves?
    ensures OneCodec(Step(r, e))
  {
    match e
    case Joins(entry) => JoinKeepsOneCodec(r, entry);
    case Leaves(c) => LeaveKeepsOneCodec(r, c);
    case Renames(c, name) =>
      if c in r.clients.items { EditKeepsOneCodec(r, c, r.clients.items[c].(username := name)); }
    case Salts(c, salt) => if c in r.clients.items { EditKeepsOneCodec(r, c, SetSalt(r, c, salt).clients.items[c]); }
    case Arrives(p, from, now) => ArriveKeepsOneCodec(r, p, from, now);
  }

  /** As long as nobody changes room, everyone in a room who has a codec has the same. */
  lemma {:induction false} OneCodecUnlessMoved(events: seq<Event>)
    requires forall k :: 0 <= k < |events| ==> !events[k].Moves?
    ensures OneCodec(Run(events))
  {
    if events == [] {
    } else {
      OneCodecUnlessMoved(events[..|events| - 1]);
      EveryRunKeeps(events[..|events| - 1]);
      StepKeepsOneCodec(Run(events[..|events| - 1]), events[|events| - 1]);
    }
  }

  lemma MoveKeepsOneCodec(r: Relay, c: string, room: string)
    requires OneCodec(r) && c in r.clients.items
    ensures OneCodec(Move(r, c, room)) <==>
            forall d :: d in r.clients.items && d != c ==>
                          Compatible(r.clients.items[c].(room := room), r.clients.items[d])
  {
    var after := Move(r, c, room);
    var moved := r.clients.items[c].(room := room);
    if forall d :: d in r.clients.items && d != c ==> Compatible(moved, r.clients.items[d]) {
      forall d, e | d in after.clients.items && e in after.clients.items
        ensures Compatible(after.clients.items[d], after.clients.items[e])
      {
        if d != c && e != c {
          assert Compatible(r.clients.items[d], r.clients.items[e]);
        }
      }
    } else {
      var d :| d in r.clients.items && d != c && !Compatible(moved, r.clients.items[d]);
      assert after.clients.items[c] == moved && after.clients.items[d] == r.clients.items[d];
    }
  }

  /** The test that joining makes: the room would give whoever proposes this codec the same codec. */
  predicate CodecFits(r: Relay, room: string, codec: string) {
    codec == "" || RoomCodec(r.clients.order, r.clients.items, room, codec) == codec
  }

  /** A change of room keeps it so exactly when the test that joining makes would have let the codec stand. */
  lemma MoveKeepsOneCodecExactly(r: Relay, c: string, room: string)
    requires Inv(r) && OneCodec(r) && c in r.clients.items && room != r.clients.items[c].room
    ensures OneCodec(Move(r, c, room)) <==> CodecFits(r, room, r.clients.items[c].codec)
  {
    MoveKeepsOneCodec(r, c, room);
    CodecIsTheRooms(r.clients.order, r.clients.items, room, r.clients.items[c].codec);
  }

  /** And it can fail: two rooms with different codecs, and one person who changes over. */
  lemma MoveCanMixCodecs(a: Entry, b: Entry)
    requires a.client != b.client && a.room != b.room && a.codec != b.codec && "" !in {a.codec, b.codec}
    ensures !OneCodec(Run([Joins(a), Joins(b), Moves(b.client, a.room)]))
  {
    var one, two := Step(EMPTY, Joins(a)), Step(Step(EMPTY, Joins(a)), Joins(b));
    assert [Joins(a)][..0] == [];
    assert [Joins(a), Joins(b)][..1] == [Joins(a)];
    assert [Joins(a), Joins(b), Moves(b.client, a.room)][..2] == [Joins(a), Joins(b)];
    assert Run([Joins(a)]) == Step(Run([]), Joins(a)) == one;
    assert Run([Joins(a), Joins(b)]) == two;
    assert one.clients.order == [a.client] && [a.client][1..] == [];
    assert RoomCodec([a.client], one.clients.items, b.room, b.codec)
        == RoomCodec([], one.clients.items, b.room, b.codec);
    var three := Step(two, Moves(b.client, a.room));
    assert !Compatible(three.clients.items[a.client], three.clients.items[b.client]);
  }
}

/** The relay as the host keeps it. */
module VoiceRelays {
  import opened Common
  import opened VoicePackets
  import opened OrderedDict
  import opened RelayPace
  import Spec = RelaySpec
  import opened RelaySpec

  datatype RelayError = IdsExhausted

  class VoiceRelay {
    var nextId: nat
    /** Participants by client, in the order they joined. */
    var clients: Dict<string, Participant>
    /** Which client an id belongs to. */
    var senders: map<nat, string>
    var rejected: nat
    ghost var latest: real

    ghost function State(): Relay
      reads this
    {
      Relay(nextId, clients, senders, rejected, latest)
    }

    constructor ()
      ensures State() == EMPTY
    {
      nextId, clients, senders, rejected, latest := 1, Dict([], map[]), map[], 0, 0.0;
    }

    method AgreedCodec(room: string, proposed: string) returns (codec: string)
      requires Inv(State())
      ensures codec == RoomCodec(clients.order, clients.items, room, proposed)
    {
      var i := 0;
      assert clients.order[0..] == clients.order;
      while i < |clients.order|
        invariant 0 <= i <= |clients.order|
        invariant RoomCodec(clients.order[i..], clients.items, room, proposed)
               == RoomCodec(clients.order, clients.items, room, proposed)
      {
        assert clients.order[i] in clients.order;
        var peer := clients.items[clients.order[i]];
        if peer.room == room && peer.codec != "" {
          return peer.codec;
        }
        assert clients.order[i..][1..] == clients.order[i + 1..];
        i := i + 1;
      }
      return proposed;
    }

    method Leave(client: string) returns (left: Option<Participant>)
      modifies this`clients, this`senders
      ensures State() == Spec.Leave(old(State()), client)
      ensures left == if client in old(clients.items) then Some(old(clients.items)[client]) else None
    {
      if client !in clients.items {
        return None;
      }
      var peer := clients.items[client];
      clients := Remove(clients, client);
      senders := senders - {peer.id};
      return Some(peer);
    }

    method Join(e: Entry) returns (r: Result<Participant, RelayError>)
      requires Inv(State())
      modifies this`clients, this`senders, this`nextId
      ensures State() == Spec.Join(old(State()), e)
      ensures r.Ok? <==> old(nextId) <= MAX_SENDER_ID
      ensures r.Ok? ==> r.value == Newcomer(Spec.Leave(old(State()), e.client), e)
    {
      LeaveKeeps(State(), e.client);
      var _ := Leave(e.client);
      var codec := AgreedCodec(e.room, e.codec);
      if nextId > MAX_SENDER_ID {
        return Err(IdsExhausted);
      }
      var peer := Participant(e.client, nextId, e.token, e.ip, codec, e.publicKey, e.username, e.room, e.salt, None,
                              UNUSED);
      nextId := nextId + 1;
      clients := Put(clients, e.client, peer);
      senders := senders[peer.id := e.client];
      return Ok(peer);
    }

    method Move(client: string, room: string)
      modifies this`clients
      ensures State() == Spec.Move(old(State()), client, room)
    {
      if client in clients.items {
        clients := Put(clients, client, clients.items[client].(room := room));
      }
    }

    method Rename(client: string, username: string)
      modifies this`clients
      ensures State() == Spec.Rename(old(State()), client, username)
    {
      if client in clients.items {
        clients := Put(clients, client, clients.items[client].(username := username));
      }
    }

    method SetSalt(client: string, salt: string) returns (known: bool)
      modifies this`clients
      ensures State() == Spec.SetSalt(old(State()), client, salt)
      ensures known <==> client in old(clients.items)
    {
      if client !in clients.items {
        return false;
      }
      var kept := if |salt| > SALT_CHARS then salt[..SALT_CHARS] else salt;
      clients := Put(clients, client, clients.items[client].(salt := kept));
      return true;
    }

    method Collect(peer: Participant) returns (out: seq<Address>)
      ensures out == Targets(clients.order, clients.items, peer)
    {
      out := [];
      for i := 0 to |clients.order|
        invariant out == Targets(clients.order[..i], clients.items, peer)
      {
        assert clients.order[..i + 1][..i] == clients.order[..i];
        if Hears(clients.items, clients.order[i], peer) {
          out := out + [clients.items[clients.order[i]].address.value];
        }
      }
      assert clients.order[..|clients.order|] == clients.order;
    }

    method Reject(now: real)
      modifies this`rejected, this`latest
      ensures State() == Rejected(old(State()), now)
    {
      rejected := rejected + 1;
      latest := now;
    }

    method Hello(peer: Participant, p: Packet, from: Address, now: real)
      requires p.Packet?
      modifies this`rejected, this`latest, this`clients
      ensures State() == if CarriesToken(p, peer.token)
                         then Edit(old(State()).(latest := now), peer.client, peer.(address := Some(from)))
                         else Rejected(old(State()), now)
    {
      latest := now;
      if !CarriesToken(p, peer.token) {
        rejected := rejected + 1;
        return;
      }
      clients := Put(clients, peer.client, peer.(address := Some(from)));
    }

    /** What arrives on the voice port: whom it goes to, and what it changes. */
    method Handle(p: Packet, from: Address, now: real) returns (out: seq<Address>)
      requires Inv(State())
      modifies this`rejected, this`latest, this`clients
      ensures (State(), out) == Spec.Handle(old(State()), p, from, now)
    {
      if !Admissible(p) || p.header.sender !in senders || clients.items[senders[p.header.sender]].ip != from.ip {
        Reject(now);
        return [];
      }
      var peer := clients.items[senders[p.header.sender]];
      assert Claimed(State(), p, from) == Some(peer);
      if p.header.kind == TYPE_HELLO {
        Hello(peer, p, from, now);
        return [];
      }
      if peer.address != Some(from) {
        Reject(now);
        return [];
      }
      var (pace, ok) := Tick(peer.pace, now);
      if !ok {
        Reject(now);
        return [];
      }
      out := Collect(peer);
      latest := now;
      clients := Put(clients, peer.client, peer.(pace := pace));
    }
  }
}
