/** The server's memory of unencrypted messages: which rooms it keeps, and what it sends to someone who joins. */
module History {
  import opened Common
  import opened OrderedDict

  const MAX_LINE_BYTES: nat := 64 * 1024
  const HISTORY_PACKET_MARGIN: nat := 1024
  const MAX_HISTORY_MESSAGES: nat := 100
  const MAX_HISTORY_ROOMS: nat := 50

  /** A packet whose encoding is one line of `length` bytes, the newline not counted. */
  datatype Packet = Packet(encrypted: bool, length: nat, serial: nat)

  type Room = string

  // What the memory should be, from the full list of writes.

  /** The rooms ever written to, the most recently written last. */
  function ByRecency(log: seq<(Room, Packet)>): seq<Room> {
    if log == [] then []
    else
      var room := log[|log| - 1].0;
      Without(ByRecency(log[..|log| - 1]), room) + [room]
  }

  function KeptRooms(log: seq<(Room, Packet)>): seq<Room> {
    Suffix(ByRecency(log), MAX_HISTORY_ROOMS)
  }

  /** A room's messages since it was last pushed out. */
  function SinceKept(log: seq<(Room, Packet)>, room: Room): seq<Packet> {
    if log == [] then []
    else
      var (written, packet) := log[|log| - 1];
      var before := SinceKept(log[..|log| - 1], room);
      if written == room then before + [packet]
      else if room in KeptRooms(log) then before
      else []
  }

  lemma WithoutFirst<K>(s: seq<K>, rest: seq<K>, k: K)
    requires s != [] && s[1..] == rest
    ensures Without(s, k) == if s[0] == k then Without(rest, k) else [s[0]] + Without(rest, k)
  {
  }

  lemma {:induction false} WithoutConcat<K>(a: seq<K>, b: seq<K>, k: K)
    ensures Without(a + b, k) == Without(a, k) + Without(b, k)
  {
    if a == [] {
      assert a + b == b;
    } else {
      WithoutConcat(a[1..], b, k);
      WithoutFirst(a + b, a[1..] + b, k);
      if a[0] != k {
        assert [a[0]] + (Without(a[1..], k) + Without(b, k)) == [a[0]] + Without(a[1..], k) + Without(b, k);
      }
    }
  }

  lemma {:induction false} WithoutSubset<K>(s: seq<K>, k: K)
    requires Distinct(s)
    ensures Distinct(Without(s, k)) && k !in Without(s, k)
    ensures forall x | x in Without(s, k) :: x in s
    ensures forall x | x in s && x != k :: x in Without(s, k)
    ensures |Without(s, k)| == |s| - (if k in s then 1 else 0)
  {
    if k in s {
      var i :| 0 <= i < |s| && s[i] == k;
      WithoutAt(s, i);
    } else {
      WithoutAbsent(s, k);
    }
  }

  lemma {:induction false} ByRecencyDistinct(log: seq<(Room, Packet)>)
    ensures Distinct(ByRecency(log))
  {
    if log == [] {
    } else {
      ByRecencyDistinct(log[..|log| - 1]);
      WithoutSubset(ByRecency(log[..|log| - 1]), log[|log| - 1].0);
    }
  }

  lemma SuffixOfConcat<T>(a: seq<T>, b: seq<T>, n: nat)
    requires |b| == n
    ensures Suffix(a + b, n) == b
  {
    assert n > 0 ==> (a + b)[|a|..] == b;
  }

  /** Moving a room to the end and trimming commute with keeping only the newest. */
  lemma MoveInSuffix(rooms: seq<Room>, room: Room, n: nat)
    requires Distinct(rooms) && n >= 1
    ensures var moved := Without(Suffix(rooms, n), room) + [room];
            Suffix(Without(rooms, room) + [room], n) == if |moved| > n then moved[1..] else moved
  {
    var newest := Suffix(rooms, n);
    var older := rooms[..|rooms| - |newest|];
    assert rooms == older + newest;
    WithoutConcat(older, newest, room);
    WithoutSubset(newest, room);
    if room !in newest {
      WithoutAbsent(newest, room);
    }
    var moved := Without(newest, room) + [room];
    var all := Without(rooms, room) + [room];
    assert all == Without(older, room) + moved;
    if |moved| > n {
      assert |newest| == n;
      assert all == Without(older, room) + moved[..1] + moved[1..];
      SuffixOfConcat(Without(older, room) + moved[..1], moved[1..], n);
    } else if |rooms| > n {
      SuffixOfConcat(Without(older, room), moved, n);
    } else {
      assert older == [];
    }
  }

  lemma WrittenIsKept(log: seq<(Room, Packet)>)
    requires log != []
    ensures KeptRooms(log) != [] && KeptRooms(log)[|KeptRooms(log)| - 1] == log[|log| - 1].0
  {
  }

  /** Of a room that is not kept nothing is left. */
  lemma NotKeptIsEmpty(log: seq<(Room, Packet)>, room: Room)
    requires room !in KeptRooms(log)
    ensures SinceKept(log, room) == []
  {
    if log != [] {
      WrittenIsKept(log);
    }
  }

  /** The dictionary holds exactly the most recently written rooms, oldest first, each with its newest messages. */
  ghost predicate Remembers(rooms: Dict<Room, seq<Packet>>, log: seq<(Room, Packet)>) {
    && rooms.Valid()
    && rooms.order == KeptRooms(log)
    && forall r :: r in rooms.items ==> rooms.items[r] == Suffix(SinceKept(log, r), MAX_HISTORY_MESSAGES)
  }

  function Trim(rooms: Dict<Room, seq<Packet>>): Dict<Room, seq<Packet>> {
    if |rooms.order| > MAX_HISTORY_ROOMS then Remove(rooms, rooms.order[0]) else rooms
  }

  function Written(rooms: Dict<Room, seq<Packet>>, room: Room, packet: Packet): Dict<Room, seq<Packet>> {
    var before := if room in rooms.items then rooms.items[room] else [];
    Trim(Put(Remove(rooms, room), room, Suffix(before + [packet], MAX_HISTORY_MESSAGES)))
  }

  /** The order of the rooms after a write. */
  lemma WrittenOrder(rooms: Dict<Room, seq<Packet>>, log: seq<(Room, Packet)>, room: Room, packet: Packet)
    requires Remembers(rooms, log)
    ensures Written(rooms, room, packet).Valid()
    ensures Written(rooms, room, packet).order == KeptRooms(log + [(room, packet)])
    ensures |rooms.order| <= MAX_HISTORY_ROOMS
  {
    ByRecencyDistinct(log);
    MoveInSuffix(ByRecency(log), room, MAX_HISTORY_ROOMS);
    assert (log + [(room, packet)])[..|log|] == log;
    RemoveValid(rooms, room);
    if room !in rooms.items { WithoutAbsent(rooms.order, room); }
    var before := if room in rooms.items then rooms.items[room] else [];
    var put := Put(Remove(rooms, room), room, Suffix(before + [packet], MAX_HISTORY_MESSAGES));
    PutValid(Remove(rooms, room), room, Suffix(before + [packet], MAX_HISTORY_MESSAGES));
    assert put.order == Without(rooms.order, room) + [room];
    if |put.order| > MAX_HISTORY_ROOMS {
      RemoveValid(put, put.order[0]);
      WithoutAt(put.order, 0);
    }
  }

  lemma SuffixAppend(s: seq<Packet>, x: Packet, n: nat)
    requires n >= 1
    ensures Suffix(Suffix(s, n) + [x], n) == Suffix(s + [x], n)
  {
  }

  /** The room written to gets the packet; no other room that is still there changes. */
  lemma WrittenItems(rooms: Dict<Room, seq<Packet>>, room: Room, packet: Packet, r: Room)
    requires r in Written(rooms, room, packet).items
    ensures var before := if room in rooms.items then rooms.items[room] else [];
            if r == room then Written(rooms, room, packet).items[r] == Suffix(before + [packet], MAX_HISTORY_MESSAGES)
            else r in rooms.items && Written(rooms, room, packet).items[r] == rooms.items[r]
  {
  }

  lemma SinceKeptStep(log: seq<(Room, Packet)>, room: Room, packet: Packet, r: Room)
    requires r in KeptRooms(log + [(room, packet)])
    ensures SinceKept(log + [(room, packet)], r) == SinceKept(log, r) + (if r == room then [packet] else [])
  {
    assert (log + [(room, packet)])[..|log|] == log;
  }

  lemma WrittenRemembers(rooms: Dict<Room, seq<Packet>>, log: seq<(Room, Packet)>, room: Room, packet: Packet)
    requires Remembers(rooms, log)
    ensures Remembers(Written(rooms, room, packet), log + [(room, packet)])
  {
    WrittenOrder(rooms, log, room, packet);
    var longer := log + [(room, packet)];
    var after := Written(rooms, room, packet);
    forall r | r in after.items ensures after.items[r] == Suffix(SinceKept(longer, r), MAX_HISTORY_MESSAGES) {
      assert r in after.order;
      WrittenItems(rooms, room, packet, r);
      SinceKeptStep(log, room, packet, r);
      if r == room {
        if room !in rooms.items { NotKeptIsEmpty(log, room); }
        SuffixAppend(SinceKept(log, room), packet, MAX_HISTORY_MESSAGES);
      }
    }
  }

  /** The loop that pushes out the oldest rooms; a write never adds more than one too many. */
  method TrimAll(rooms: Dict<Room, seq<Packet>>) returns (trimmed: Dict<Room, seq<Packet>>)
    requires rooms.Valid() && |rooms.order| <= MAX_HISTORY_ROOMS + 1
    ensures trimmed == Trim(rooms)
  {
    trimmed := rooms;
    while |trimmed.order| > MAX_HISTORY_ROOMS
      invariant Trim(trimmed) == Trim(rooms) && trimmed.Valid() && |trimmed.order| <= MAX_HISTORY_ROOMS + 1
      decreases |trimmed.order|
    {
      assert trimmed.order[0] in trimmed.items;
      RemoveValid(trimmed, trimmed.order[0]);
      trimmed := Remove(trimmed, trimmed.order[0]);
    }
  }

  class ChatHistory {
    const keep: bool
    var rooms: Dict<Room, seq<Packet>>
    /** Every packet that was due to be kept, oldest first. */
    ghost var log: seq<(Room, Packet)>

    ghost predicate Valid()
      reads this
    {
      Remembers(rooms, log)
    }

    constructor (keep: bool)
      ensures Valid() && this.keep == keep && log == []
    {
      this.keep := keep;
      rooms, log := Empty(), [];
    }

    /** Encrypted packets are never kept, and none at all when history is off. */
    method Append(room: Room, packet: Packet)
      requires Valid()
      modifies this
      ensures Valid()
      ensures log == if keep && !packet.encrypted then old(log) + [(room, packet)] else old(log)
    {
      if !keep || packet.encrypted {
        return;
      }
      WrittenRemembers(rooms, log, room, packet);
      WrittenOrder(rooms, log, room, packet);
      ghost var target := Written(rooms, room, packet);
      var messages := if room in rooms.items then rooms.items[room] else [];
      messages := Suffix(messages + [packet], MAX_HISTORY_MESSAGES);
      RemoveValid(rooms, room);
      PutValid(Remove(rooms, room), room, messages);
      rooms := TrimAll(Put(Remove(rooms, room), room, messages));
      log := log + [(room, packet)];
    }
  }

  // What someone who joins is sent.

  /** Each message costs its line; the newline stands in for the comma between messages. */
  function Cost(messages: seq<Packet>): nat {
    if messages == [] then 0 else Cost(messages[1..]) + messages[0].length + 1
  }

  function Lengths(messages: seq<Packet>): nat {
    if messages == [] then 0 else Lengths(messages[1..]) + messages[0].length
  }

  /** The encoded length of a history packet, given that of an empty one; newline included in both. */
  function EncodedLength(empty: nat, messages: seq<Packet>): int {
    empty + Lengths(messages) + (if messages == [] then 0 else |messages| - 1)
  }

  lemma {:induction false} CostIsLengths(messages: seq<Packet>)
    ensures Cost(messages) == Lengths(messages) + |messages|
  {
    if messages == [] {
    } else {
      CostIsLengths(messages[1..]);
    }
  }

  lemma {:induction false} CostGrows(messages: seq<Packet>, i: nat, j: nat)
    requires i <= j <= |messages|
    ensures Cost(messages[i..]) >= Cost(messages[j..])
    decreases j - i
  {
    if i < j {
      assert messages[i..][1..] == messages[i + 1..];
      CostGrows(messages, i + 1, j);
    }
  }

  const PACKET_LIMIT: nat := MAX_LINE_BYTES - HISTORY_PACKET_MARGIN

  /** Whatever reaches further back costs at least the first message left out as well. */
  lemma LongerCostsMore(recent: seq<Packet>, i: nat, j: nat)
    requires j < i <= |recent|
    ensures Cost(recent[j..]) >= Cost(recent[i..]) + recent[i - 1].length + 1
  {
    assert recent[i - 1..][1..] == recent[i..];
    CostGrows(recent, j, i - 1);
  }

  /** Walking back from the newest message until the next one does not fit: where the selection starts. */
  method StartOfFitting(recent: seq<Packet>, budget: int) returns (i: nat)
    ensures i <= |recent|
    ensures i < |recent| ==> Cost(recent[i..]) <= budget
    ensures forall j :: 0 <= j < i ==> Cost(recent[j..]) > budget
  {
    var left := budget;
    i := |recent|;
    while i > 0 && recent[i - 1].length + 1 <= left
      invariant i <= |recent|
      invariant left == budget - Cost(recent[i..])
      invariant i < |recent| ==> left >= 0
    {
      assert recent[i - 1..][1..] == recent[i..];
      left := left - (recent[i - 1].length + 1);
      i := i - 1;
    }
    forall j | 0 <= j < i ensures Cost(recent[j..]) > budget {
      LongerCostsMore(recent, i, j);
    }
  }

  /**
   The longest run of newest messages, out of the last hundred, whose packet stays below the client's line
   limit less the margin.
  */
  method HistoryPacket(kept: seq<Packet>, empty: nat) returns (selected: seq<Packet>)
    ensures var recent := Suffix(kept, MAX_HISTORY_MESSAGES);
            && |selected| <= |recent| && selected == recent[|recent| - |selected|..]
            && (selected != [] ==> EncodedLength(empty, selected) < PACKET_LIMIT)
            && forall j :: 0 <= j < |recent| - |selected| ==> EncodedLength(empty, recent[j..]) >= PACKET_LIMIT
  {
    var recent := Suffix(kept, MAX_HISTORY_MESSAGES);
    var i := StartOfFitting(recent, PACKET_LIMIT - empty);
    selected := recent[i..];
    forall j | 0 <= j <= i ensures Cost(recent[j..]) == Lengths(recent[j..]) + |recent| - j {
      CostIsLengths(recent[j..]);
    }
  }
}
