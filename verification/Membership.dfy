/** Rooms and their members, in the order in which they entered. */
module RegistrySpec {
  import opened Common
  import opened OrderedDict

  /** Room by room, the name each client goes by. */
  type Rooms = map<string, Dict<string, string>>

  function Members(g: Rooms, room: string): Dict<string, string> {
    if room in g then g[room] else Dict([], map[])
  }

  function Enter(g: Rooms, room: string, c: string, name: string): Rooms {
    g[room := Put(Members(g, room), c, name)]
  }

  /** A room goes with its last member. */
  function Exit(g: Rooms, room: string, c: string): Rooms {
    var rest := Remove(Members(g, room), c);
    if Members(g, room).items == map[] then g
    else if rest.items == map[] then g - {room}
    else g[room := rest]
  }

  function NameIn(g: Rooms, room: string, c: string): Option<string> {
    if room in g && c in g[room].items then Some(g[room].items[c]) else None
  }

  /** No room is empty. */
  ghost predicate Tidy(g: Rooms) {
    forall room :: room in g ==> g[room].Valid() && g[room].items != map[]
  }

  /** The members' names in order, one client left out. */
  function Usernames(line: seq<string>, items: map<string, string>, exclude: Option<string>): (names: seq<string>)
    ensures |names| <= |line|
  {
    if line == [] then []
    else if line[0] in items && exclude != Some(line[0]) then [items[line[0]]] + Usernames(line[1..], items, exclude)
    else Usernames(line[1..], items, exclude)
  }

  /** Exactly the names of the members who are not left out. */
  lemma {:induction false} UsernamesAre(line: seq<string>, items: map<string, string>, exclude: Option<string>,
                                        name: string)
    ensures name in Usernames(line, items, exclude)
       <==> exists c :: c in line && c in items && exclude != Some(c) && items[c] == name
  {
    if line == [] {
    } else {
      UsernamesAre(line[1..], items, exclude, name);
      assert line == [line[0]] + line[1..];
    }
  }

  lemma UsernamesFrom(line: seq<string>, rest: seq<string>, items: map<string, string>, exclude: Option<string>)
    requires line != [] && line[1..] == rest
    ensures Usernames(line, items, exclude)
         == if line[0] in items && exclude != Some(line[0]) then [items[line[0]]] + Usernames(rest, items, exclude)
            else Usernames(rest, items, exclude)
  {
  }

  /** In the order of the members. */
  lemma {:induction false} UsernamesInOrder(line: seq<string>, more: seq<string>, items: map<string, string>,
                                            exclude: Option<string>)
    ensures Usernames(line + more, items, exclude) == Usernames(line, items, exclude) + Usernames(more, items, exclude)
  {
    if line == [] {
      assert line + more == more;
    } else {
      UsernamesInOrder(line[1..], more, items, exclude);
      UsernamesFrom(line + more, line[1..] + more, items, exclude);
      var names, others := Usernames(line[1..], items, exclude), Usernames(more, items, exclude);
      if line[0] in items && exclude != Some(line[0]) {
        assert [items[line[0]]] + (names + others) == [items[line[0]]] + names + others;
      }
    }
  }

  lemma EnterNames(g: Rooms, room: string, c: string, name: string, room': string, c': string)
    ensures NameIn(Enter(g, room, c, name), room', c') == if room' == room && c' == c then Some(name)
                                                          else NameIn(g, room', c')
  {
  }

  lemma ExitNames(g: Rooms, room: string, c: string, room': string, c': string)
    ensures NameIn(Exit(g, room, c), room', c') == if room' == room && c' == c then None else NameIn(g, room', c')
  {
    var rest := Remove(Members(g, room), c);
    if room' == room && c' != c && NameIn(g, room', c').Some? {
      assert c' in rest.items;
    }
  }

  lemma EnterTidy(g: Rooms, room: string, c: string, name: string)
    requires Tidy(g)
    ensures Tidy(Enter(g, room, c, name))
  {
    PutValid(Members(g, room), c, name);
    assert c in Put(Members(g, room), c, name).items;
  }

  lemma ExitTidy(g: Rooms, room: string, c: string)
    requires Tidy(g)
    ensures Tidy(Exit(g, room, c))
  {
    if room in g {
      RemoveValid(g[room], c);
    }
  }
}

module RoomRegistries {
  import opened OrderedDict
  import opened RegistrySpec

  class RoomRegistry {
    var rooms: Rooms

    constructor ()
      ensures rooms == map[]
    {
      rooms := map[];
    }

    method Join(room: string, c: string, name: string)
      modifies this
      ensures rooms == Enter(old(rooms), room, c, name)
    {
      if room !in rooms {
        rooms := rooms[room := Dict([], map[])];
      }
      rooms := rooms[room := Put(rooms[room], c, name)];
    }

    method Leave(room: string, c: string)
      modifies this
      ensures rooms == Exit(old(rooms), room, c)
    {
      if room !in rooms || rooms[room].items == map[] {
        return;
      }
      var members := Remove(rooms[room], c);
      rooms := if members.items == map[] then rooms - {room} else rooms[room := members];
    }
  }
}

/** The hub: which room each client is in and under which name, beside the registry that says it room by room. */
module HubSpec {
  import opened Common
  import opened RegistrySpec

  datatype Hub = Hub(registry: Rooms, rooms: map<string, string>, names: map<string, string>, attached: set<string>)

  /** Where and under which name somebody is. */
  datatype Seat = Seat(room: string, name: string)

  const NO_ONE: Hub := Hub(map[], map[], map[], {})

  /** Entering a room, after leaving the previous one if it is another one and has a name. */
  function Switch(g: Rooms, previous: Option<string>, room: string, c: string, name: string): Rooms {
    var left := if previous.Some? && previous.value != "" && previous.value != room then Exit(g, previous.value, c)
                else g;
    Enter(left, room, c, name)
  }

  function Previous(rooms: map<string, string>, c: string): Option<string> {
    if c in rooms then Some(rooms[c]) else None
  }

  function JoinRoom(h: Hub, room: string, c: string, name: string): Hub {
    Hub(Switch(h.registry, Previous(h.rooms, c), room, c, name), h.rooms[c := room], h.names[c := name],
        h.attached + {c})
  }

  function LeaveRoom(h: Hub, c: string): Hub {
    Hub(if c in h.rooms then Exit(h.registry, h.rooms[c], c) else h.registry, h.rooms - {c}, h.names - {c}, h.attached)
  }

  function Targets(line: seq<string>, attached: set<string>): (targets: seq<string>)
    ensures forall c :: c in targets <==> c in line && c in attached
    ensures Distinct(line) ==> Distinct(targets)
  {
    if line == [] then []
    else
      var last := line[|line| - 1];
      assert line == line[..|line| - 1] + [last];
      Targets(line[..|line| - 1], attached) + (if last in attached then [last] else [])
  }

  /** The names in a room, as everybody in it is told. */
  function Snapshot(g: Rooms, room: string): seq<string> {
    Usernames(Members(g, room).order, Members(g, room).items, None)
  }

  /** What the registry should say about somebody, given who sits where. */
  function SeatedIn(seats: map<string, Seat>, room: string, c: string): Option<string> {
    if c in seats && seats[c].room == room then Some(seats[c].name) else None
  }

  ghost predicate RoomsAgree(rooms: map<string, string>, seats: map<string, Seat>) {
    rooms.Keys == seats.Keys && forall c :: c in seats ==> rooms[c] == seats[c].room
  }

  function RoomsOf(seats: map<string, Seat>): map<string, string> {
    map c | c in seats :: seats[c].room
  }

  ghost predicate NamesAgree(names: map<string, string>, seats: map<string, Seat>) {
    names.Keys == seats.Keys && forall c :: c in seats ==> names[c] == seats[c].name
  }

  ghost predicate RegistryAgrees(g: Rooms, seats: map<string, Seat>) {
    forall room, c :: NameIn(g, room, c) == SeatedIn(seats, room, c)
  }

  /** All three tables say the same as one table of seats, and nobody is missing a connection. */
  ghost predicate Consistent(h: Hub, seats: map<string, Seat>) {
    && RoomsAgree(h.rooms, seats) && NamesAgree(h.names, seats)
    && RegistryAgrees(h.registry, seats) && Tidy(h.registry)
    && seats.Keys <= h.attached
  }

  /** And no room is without a name. */
  ghost predicate Agrees(h: Hub, seats: map<string, Seat>) {
    Consistent(h, seats) && forall c :: c in seats ==> seats[c].room != ""
  }

  lemma EnterAgrees(g: Rooms, seats: map<string, Seat>, room: string, c: string, name: string)
    requires RegistryAgrees(g, seats) && (c in seats ==> seats[c].room == room)
    ensures RegistryAgrees(Enter(g, room, c, name), seats[c := Seat(room, name)])
  {
    forall room', c' ensures NameIn(Enter(g, room, c, name), room', c')
                          == SeatedIn(seats[c := Seat(room, name)], room', c') {
      EnterNames(g, room, c, name, room', c');
      assert NameIn(g, room', c') == SeatedIn(seats, room', c');
    }
  }

  lemma ExitAgrees(g: Rooms, seats: map<string, Seat>, c: string)
    requires RegistryAgrees(g, seats) && c in seats
    ensures RegistryAgrees(Exit(g, seats[c].room, c), seats - {c})
  {
    forall room', c' ensures NameIn(Exit(g, seats[c].room, c), room', c') == SeatedIn(seats - {c}, room', c') {
      ExitNames(g, seats[c].room, c, room', c');
      assert NameIn(g, room', c') == SeatedIn(seats, room', c');
    }
  }

  lemma SwitchTidy(g: Rooms, previous: Option<string>, room: string, c: string, name: string)
    requires Tidy(g)
    ensures Tidy(Switch(g, previous, room, c, name))
  {
    if previous.Some? {
      ExitTidy(g, previous.value, c);
      EnterTidy(Exit(g, previous.value, c), room, c, name);
    }
    EnterTidy(g, room, c, name);
  }

  /** The old room is left, or is the new one. */
  lemma SwitchAgrees(g: Rooms, seats: map<string, Seat>, previous: Option<string>, room: string, c: string,
                     name: string)
    requires RegistryAgrees(g, seats) && previous == Previous(RoomsOf(seats), c)
    requires previous != Some("") || room == ""
    ensures RegistryAgrees(Switch(g, previous, room, c, name), seats[c := Seat(room, name)])
  {
    if c in seats && seats[c].room != room {
      ExitAgrees(g, seats, c);
      EnterAgrees(Exit(g, seats[c].room, c), seats - {c}, room, c, name);
      assert (seats - {c})[c := Seat(room, name)] == seats[c := Seat(room, name)];
    } else {
      EnterAgrees(g, seats, room, c, name);
    }
  }

  /** From a room without a name to one that has a name: the old room goes on listing whoever left it. */
  lemma SwitchParts(g: Rooms, seats: map<string, Seat>, room: string, c: string, name: string)
    requires RegistryAgrees(g, seats) && Previous(RoomsOf(seats), c) == Some("") && room != ""
    ensures !RegistryAgrees(Switch(g, Some(""), room, c, name), seats[c := Seat(room, name)])
  {
    assert NameIn(g, "", c) == SeatedIn(seats, "", c);
    EnterNames(g, room, c, name, "", c);
    assert NameIn(Switch(g, Some(""), room, c, name), "", c) != SeatedIn(seats[c := Seat(room, name)], "", c);
  }

  lemma SeatsFollow(h: Hub, seats: map<string, Seat>, room: string, c: string, name: string)
    requires RoomsAgree(h.rooms, seats) && NamesAgree(h.names, seats)
    ensures RoomsAgree(h.rooms[c := room], seats[c := Seat(room, name)])
    ensures NamesAgree(h.names[c := name], seats[c := Seat(room, name)])
  {
  }

  /**
   Joining keeps the tables in agreement exactly unless somebody goes from a room without a name to one that has a
   name.
  */
  lemma JoiningPartsExactly(h: Hub, seats: map<string, Seat>, room: string, c: string, name: string)
    requires Consistent(h, seats)
    ensures Consistent(JoinRoom(h, room, c, name), seats[c := Seat(room, name)])
       <==> !(c in h.rooms && h.rooms[c] == "" && room != "")
  {
    var previous := Previous(h.rooms, c);
    assert previous == Previous(RoomsOf(seats), c);
    SwitchTidy(h.registry, previous, room, c, name);
    SeatsFollow(h, seats, room, c, name);
    if previous == Some("") && room != "" {
      SwitchParts(h.registry, seats, room, c, name);
    } else {
      SwitchAgrees(h.registry, seats, previous, room, c, name);
    }
  }

  /** The one case does occur. */
  lemma NamelessRoomIsNeverLeft(c: string, name: string, room: string)
    requires room != ""
    ensures var h := JoinRoom(JoinRoom(NO_ONE, "", c, name), room, c, name);
            NameIn(h.registry, "", c) == Some(name) && NameIn(h.registry, room, c) == Some(name) && h.rooms[c] == room
  {
  }

  lemma LeavingKeepsConsistent(h: Hub, seats: map<string, Seat>, c: string)
    requires Consistent(h, seats)
    ensures Consistent(LeaveRoom(h, c), seats - {c})
  {
    if c in seats {
      ExitAgrees(h.registry, seats, c);
      ExitTidy(h.registry, seats[c].room, c);
    } else {
      assert seats - {c} == seats;
    }
  }

  /** So as long as every room has a name, joining and leaving keep the tables in agreement. */
  lemma JoinRoomAgrees(h: Hub, seats: map<string, Seat>, room: string, c: string, name: string)
    requires Agrees(h, seats) && room != ""
    ensures Agrees(JoinRoom(h, room, c, name), seats[c := Seat(room, name)])
  {
    JoiningPartsExactly(h, seats, room, c, name);
  }

  lemma LeaveRoomAgrees(h: Hub, seats: map<string, Seat>, c: string)
    requires Agrees(h, seats)
    ensures Agrees(LeaveRoom(h, c), seats - {c})
  {
    LeavingKeepsConsistent(h, seats, c);
  }

  /** A broadcast goes once to everyone who sits in the room, and to nobody else. */
  lemma BroadcastReachesTheRoom(h: Hub, seats: map<string, Seat>, room: string)
    requires Agrees(h, seats)
    ensures var targets := Targets(Members(h.registry, room).order, h.attached);
            Distinct(targets) && forall c :: c in targets <==> c in seats && seats[c].room == room
  {
    forall c ensures c in Members(h.registry, room).order <==> c in seats && seats[c].room == room {
      assert NameIn(h.registry, room, c) == SeatedIn(seats, room, c);
    }
  }

  /** A snapshot lists the name of everyone who sits in the room, and no other name. */
  lemma SnapshotListsTheRoom(h: Hub, seats: map<string, Seat>, room: string, name: string)
    requires Agrees(h, seats)
    ensures name in Snapshot(h.registry, room) <==> exists c :: c in seats && seats[c] == Seat(room, name)
  {
    var members := Members(h.registry, room);
    UsernamesAre(members.order, members.items, None, name);
    if name in Snapshot(h.registry, room) {
      var c :| c in members.order && c in members.items && members.items[c] == name;
      assert NameIn(h.registry, room, c) == SeatedIn(seats, room, c);
      assert seats[c] == Seat(room, name);
    }
    if c :| c in seats && seats[c] == Seat(room, name) {
      assert NameIn(h.registry, room, c) == SeatedIn(seats, room, c);
      assert members.items[c] in Snapshot(h.registry, room);
    }
  }
}

module MessageHubs {
  import opened RegistrySpec
  import opened RoomRegistries
  import Spec = HubSpec
  import opened HubSpec

  class MessageHub {
    const registry: RoomRegistry
    var rooms: map<string, string>
    var names: map<string, string>
    var attached: set<string>

    ghost function State(): Hub
      reads this, registry
    {
      Hub(registry.rooms, rooms, names, attached)
    }

    constructor ()
      ensures State() == NO_ONE && fresh(registry)
    {
      registry := new RoomRegistry();
      rooms, names, attached := map[], map[], {};
    }

    /** The snapshot is what the newcomer is told. */
    method JoinRoom(room: string, c: string, name: string) returns (snapshot: seq<string>)
      modifies this, registry
      ensures State() == Spec.JoinRoom(old(State()), room, c, name)
      ensures snapshot == Snapshot(State().registry, room)
    {
      attached := attached + {c};
      if c in rooms && rooms[c] != "" && rooms[c] != room {
        registry.Leave(rooms[c], c);
      }
      rooms := rooms[c := room];
      names := names[c := name];
      registry.Join(room, c, name);
      snapshot := Snapshot(registry.rooms, room);
    }

    method LeaveRoom(c: string)
      modifies this, registry
      ensures State() == Spec.LeaveRoom(old(State()), c)
    {
      if c in rooms {
        registry.Leave(rooms[c], c);
      }
      rooms := rooms - {c};
      names := names - {c};
    }

    method DetachClient(c: string)
      modifies this`attached
      ensures State() == old(State()).(attached := old(attached) - {c})
    {
      attached := attached - {c};
    }

    /** The members of a room who are told what happens in it. */
    method BroadcastTargets(room: string) returns (targets: seq<string>)
      ensures targets == Targets(Members(registry.rooms, room).order, attached)
    {
      targets := [];
      var line := Members(registry.rooms, room).order;
      for i := 0 to |line|
        invariant targets == Targets(line[..i], attached)
      {
        assert line[..i + 1][..i] == line[..i];
        if line[i] in attached {
          targets := targets + [line[i]];
        }
      }
      assert line[..|line|] == line;
    }
  }
}
