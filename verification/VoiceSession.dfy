/**
 What one listener owes one sender: every authentic number reaches the loudspeaker at most once.
 Neither the replay window nor the jitter buffer gives this alone; together they do.
*/
module PlayedOnce {
  import opened JitterSpec

  /**
   The observer's record for one sender. `epoch` counts the salts registered for it; `source` says under
   which of them each buffered frame came in; `played` lists what was handed to the mixer.
  */
  datatype Trace = Trace(epoch: nat, source: map<int, nat>, played: set<(nat, int)>)

  const UNHEARD: Trace := Trace(0, map[], {})

  ghost predicate Once<P>(b: Jitter<P>, accepted: set<int>, t: Trace) {
    match t
    case Trace(epoch, source, played) =>
      && source.Keys == b.frames.Keys
      && (forall k :: k in source ==> source[k] <= epoch && (source[k], k) !in played)
      && (forall k :: k in source && source[k] == epoch ==> k in accepted)
      && (forall e, k :: (e, k) in played ==> e <= epoch && (e == epoch ==> k in accepted))
      && (epoch == 0 ==> b.tally.duplicate == 0)
  }

  ghost function PushTrace<P>(c: Config, b: Jitter<P>, t: Trace, sequence: nat, payload: P): Trace {
    var (after, ok) := Push(c, b, sequence, payload);
    if !ok then t
    else if after.tally.resync > b.tally.resync then t.(source := map[sequence as int := t.epoch])
    else t.(source := t.source[sequence as int := t.epoch])
  }

  ghost function PopTrace<P>(c: Config, b: Jitter<P>, t: Trace): Trace
    requires c.Valid()
  {
    var (after, frame) := Pop(c, b);
    var slot := after.next - 1;
    Trace(t.epoch,
          map k | k in t.source && k in after.frames :: t.source[k],
          if frame.Some? && slot in t.source then t.played + {(t.source[slot], slot)} else t.played)
  }

  /** A packet that opened but was not buffered only adds to what the window knows. */
  lemma AcceptKeeps<P>(b: Jitter<P>, accepted: set<int>, accepted': set<int>, t: Trace)
    requires Once(b, accepted, t) && accepted <= accepted'
    ensures Once(b, accepted', t)
  {
  }

  lemma PushKeeps<P>(c: Config, b: Jitter<P>, accepted: set<int>, t: Trace, sequence: nat, payload: P)
    requires Once(b, accepted, t) && sequence !in accepted
    ensures Once(Push(c, b, sequence, payload).0, accepted + {sequence}, PushTrace(c, b, t, sequence, payload))
  {
    if t.epoch == 0 {
      assert forall k :: k in t.source ==> k in accepted;
    }
  }

  lemma PopKeeps<P>(c: Config, b: Jitter<P>, accepted: set<int>, t: Trace)
    requires c.Valid() && Bounded(c, b) && Once(b, accepted, t)
    ensures Once(Pop(c, b).0, accepted, PopTrace(c, b, t))
    ensures Pop(c, b).1.Some? ==> var slot := Pop(c, b).0.next - 1;
                                  && slot in t.source && slot in b.frames && b.frames[slot] == Pop(c, b).1.value
                                  && (t.source[slot], slot) !in t.played
                                  && PopTrace(c, b, t).played == t.played + {(t.source[slot], slot)}
  {
    if Consumes(c, b) {
      StartedBounded(c, b);
    }
  }

  ghost function NextEpoch(t: Trace): Trace {
    t.(epoch := t.epoch + 1)
  }

  /** A new salt is a new session: an empty window, and frames of the old one still in the buffer. */
  lemma ResaltKeeps<P>(b: Jitter<P>, accepted: set<int>, t: Trace)
    requires Once(b, accepted, t)
    ensures Once(b, {}, NextEpoch(t))
  {
  }

  /**
   The one thing a new salt gives up. A number the window has newly accepted counts as a duplicate exactly when a
   frame still waits under it and the buffer is not about to judge it late or to resync; that frame came in under an
   earlier salt.
  */
  lemma DuplicateExactly<P>(c: Config, b: Jitter<P>, accepted: set<int>, t: Trace, sequence: nat, payload: P)
    requires Once(b, accepted, t) && sequence !in accepted
    ensures Push(c, b, sequence, payload).0.tally.duplicate > b.tally.duplicate
       <==> sequence in b.frames && (b.playing ==> b.next <= sequence <= b.next + c.capacity)
    ensures sequence in b.frames ==> sequence in t.source && t.source[sequence] < t.epoch
  {
  }
}

/**
 A voice session as a value: the cipher's table of senders and one jitter buffer per peer, with the observer's
 records.
*/
module SessionSpec {
  import opened Common
  import opened VoicePackets
  import opened ReplayWindows
  import Cipher = CipherSpec
  import opened CipherSpec
  import opened JitterSpec
  import opened PlayedOnce

  /** Bytes of the timing extra behind each encoded frame. */
  const TIMING_BYTES: nat := 10
  /** 60 ms of target, 40 ms of slack, one second of capacity, a drop at most every fifth frame; 20 ms frames. */
  const DEFAULT_BUFFER: Config := Config(3, 2, 50, Some(5))

  /** One peer with its buffer, the numbers its window has accepted, and the observer's record. */
  datatype Ear = Ear(buffer: Jitter<Bytes>, accepted: set<int>, trace: Trace)
  {
    /** Nothing of one registration has been played twice, and nothing ever will be. */
    ghost predicate PlaysOnce() {
      match this
      case Ear(buffer, accepted, trace) => Bounded(DEFAULT_BUFFER, buffer) && Once(buffer, accepted, trace)
    }
  }

  const NEW_EAR: Ear := Ear(Fresh(DEFAULT_BUFFER), {}, UNHEARD)

  datatype Session = Session(frameBytes: nat, table: Table, peers: map<nat, Jitter<Bytes>>, traces: map<nat, Trace>)
  {
    ghost predicate Matched() {
      && table.ownId !in peers && traces.Keys == peers.Keys
      && table.senders.Keys == peers.Keys + {table.ownId}
    }

    ghost function EarOf(id: nat): Ear {
      if id in peers && id in table.senders && id in traces
      then Ear(peers[id], table.senders[id].window.accepted, traces[id]) else NEW_EAR
    }

    ghost predicate Inv() {
      Matched() && forall id :: EarOf(id).PlaysOnce()
    }
  }

  /** A first registration starts from nothing, the same salt again changes nothing, a new salt starts an epoch. */
  ghost function AddPeer(s: Session, id: nat, salt: Bytes, senderKey: Option<Bytes>): Session {
    var r := Register(s.table, id, salt, senderKey);
    if id == s.table.ownId || r.Err? then s
    else if id !in s.peers then
      s.(table := r.value, peers := s.peers[id := Fresh(DEFAULT_BUFFER)], traces := s.traces[id := UNHEARD])
    else if id in s.table.senders && s.table.senders[id].salt != salt && id in s.traces then
      s.(table := r.value, traces := s.traces[id := NextEpoch(s.traces[id])])
    else s.(table := r.value)
  }

  ghost function RemovePeer(s: Session, id: nat): Session {
    s.(table := Cipher.Forget(s.table, id), peers := s.peers - {id}, traces := s.traces - {id})
  }

  /** Whether a datagram ends up in its sender's buffer: it opens, is new to the window and has the right size. */
  predicate Takes(frameBytes: nat, table: Table, peers: map<nat, Jitter<Bytes>>, d: Datagram) {
    && d.Datagram? && d.header.sender in peers && Open(table, d).Ok?
    && |Open(table, d).value.1| == frameBytes + TIMING_BYTES
  }

  /** What becomes of a datagram. */
  datatype Fate = NoHeader | NotOurs | Escapes | Unopened | WrongSize | Taken

  function FateOf(frameBytes: nat, table: Table, peers: map<nat, Jitter<Bytes>>, d: Datagram): Fate {
    if DecodeHeader(d).Err? then NoHeader
    else if d.header.sender == table.ownId || d.header.sender !in peers then NotOurs
    else if !WellFormed(d) then Escapes
    else if Open(table, d).Err? then Unopened
    else if |Open(table, d).value.1| != frameBytes + TIMING_BYTES then WrongSize
    else Taken
  }

  /** The packet error gets past the session exactly for a known peer's packet whose body is empty or too long. */
  lemma EscapesExactly(frameBytes: nat, table: Table, peers: map<nat, Jitter<Bytes>>, d: Datagram)
    ensures FateOf(frameBytes, table, peers, d) == Escapes
       <==> && DecodeHeader(d).Ok? && d.header.sender != table.ownId && d.header.sender in peers
            && (BodyBytes(d.body) == 0 || HEADER_BYTES + BodyBytes(d.body) > MAX_DATAGRAM_BYTES)
  {
  }

  /** A bare header is such a packet. */
  lemma BareHeaderEscapes(frameBytes: nat, table: Table, peers: map<nat, Jitter<Bytes>>, id: nat)
    requires id != table.ownId && id in peers
    ensures var header := Header(PROTOCOL_VERSION, TYPE_AUDIO, id, 0, 0);
            FateOf(frameBytes, table, peers, Datagram(header, Noise(0))) == Escapes
  {
  }

  function FrameOf(frameBytes: nat, table: Table, d: Datagram): Bytes
    requires Open(table, d).Ok? && |Open(table, d).value.1| == frameBytes + TIMING_BYTES
  {
    Open(table, d).value.1[..frameBytes]
  }

  ghost function Incoming(s: Session, d: Datagram): Session {
    if d.Stub? || DecodeHeader(d).Err? || d.header.sender !in s.peers || d.header.sender == s.table.ownId then s
    else
      var id := d.header.sender;
      var after := s.(table := Opened(s.table, d));
      if !Takes(s.frameBytes, s.table, s.peers, d) || id !in s.traces then after
      else
        var frame := FrameOf(s.frameBytes, s.table, d);
        after.(peers := s.peers[id := Push(DEFAULT_BUFFER, s.peers[id], d.header.sequence, frame).0],
        traces := s.traces[id := PushTrace(DEFAULT_BUFFER, s.peers[id], s.traces[id], d.header.sequence, frame)])
  }

  function Lefts<A, B>(pairs: map<nat, (A, B)>): (r: map<nat, A>)
    ensures r.Keys == pairs.Keys && forall id :: id in pairs ==> r[id] == pairs[id].0
  {
    map id | id in pairs :: pairs[id].0
  }

  function Rights<A, B>(pairs: map<nat, (A, B)>): (r: map<nat, B>)
    ensures r.Keys == pairs.Keys && forall id :: id in pairs ==> r[id] == pairs[id].1
  {
    map id | id in pairs :: pairs[id].1
  }

  /** What popping each buffer once leaves and hands out. */
  function Turns(peers: map<nat, Jitter<Bytes>>): (r: map<nat, (Jitter<Bytes>, Option<Bytes>)>)
    ensures r.Keys == peers.Keys
  {
    map id | id in peers :: Pop(DEFAULT_BUFFER, peers[id])
  }

  ghost function PoppedTraces(peers: map<nat, Jitter<Bytes>>, traces: map<nat, Trace>): (after: map<nat, Trace>)
    ensures after.Keys == traces.Keys * peers.Keys
  {
    map id | id in traces && id in peers :: PopTrace(DEFAULT_BUFFER, peers[id], traces[id])
  }

  ghost function Play(s: Session): Session {
    s.(peers := Lefts(Turns(s.peers)), traces := PoppedTraces(s.peers, s.traces))
  }

  lemma NewEarPlaysOnce()
    ensures NEW_EAR.PlaysOnce()
  {
  }

  ghost function ResaltedEar(e: Ear): Ear {
    Ear(e.buffer, {}, NextEpoch(e.trace))
  }

  lemma ResaltEar(e: Ear)
    requires e.PlaysOnce()
    ensures ResaltedEar(e).PlaysOnce()
  {
    ResaltKeeps(e.buffer, e.accepted, e.trace);
  }

  lemma AddPeerMatches(s: Session, id: nat, salt: Bytes, senderKey: Option<Bytes>)
    requires s.Matched()
    ensures AddPeer(s, id, salt, senderKey).Matched()
  {
  }

  /** The one ear that can change is as it was, new, or starting over with an empty window. */
  lemma AddPeerEars(s: Session, id: nat, salt: Bytes, senderKey: Option<Bytes>, i: nat)
    requires s.Matched()
    ensures AddPeer(s, id, salt, senderKey).EarOf(i) in {s.EarOf(i), NEW_EAR, ResaltedEar(s.EarOf(i))}
  {
  }

  lemma AddPeerKeeps(s: Session, id: nat, salt: Bytes, senderKey: Option<Bytes>)
    requires s.Inv()
    ensures AddPeer(s, id, salt, senderKey).Inv()
  {
    var after := AddPeer(s, id, salt, senderKey);
    AddPeerMatches(s, id, salt, senderKey);
    forall i ensures after.EarOf(i).PlaysOnce() {
      AddPeerEars(s, id, salt, senderKey, i);
      ResaltEar(s.EarOf(i));
      NewEarPlaysOnce();
    }
  }

  lemma RemovePeerKeeps(s: Session, id: nat)
    requires s.Inv()
    ensures RemovePeer(s, id).Inv()
  {
    var after := RemovePeer(s, id);
    forall i ensures after.EarOf(i).PlaysOnce() {
      assert after.EarOf(i) in {s.EarOf(i), NEW_EAR};
    }
  }

  /** A datagram that opened, with its frame if it had the right size. */
  ghost function HeardEar(e: Ear, sequence: nat, frame: Option<Bytes>): Ear {
    match frame
    case None => e.(accepted := e.accepted + {sequence})
    case Some(f) => Ear(Push(DEFAULT_BUFFER, e.buffer, sequence, f).0, e.accepted + {sequence},
                        PushTrace(DEFAULT_BUFFER, e.buffer, e.trace, sequence, f))
  }

  lemma HearEar(e: Ear, sequence: nat, frame: Option<Bytes>)
    requires e.PlaysOnce() && sequence !in e.accepted
    ensures HeardEar(e, sequence, frame).PlaysOnce()
  {
    if frame.Some? {
      PushKeeps(DEFAULT_BUFFER, e.buffer, e.accepted, e.trace, sequence, frame.value);
      PushBounded(DEFAULT_BUFFER, e.buffer, sequence, frame.value);
    } else {
      AcceptKeeps(e.buffer, e.accepted, e.accepted + {sequence}, e.trace);
    }
  }

  lemma IncomingMatches(s: Session, d: Datagram)
    requires s.Matched()
    ensures Incoming(s, d).Matched()
  {
  }

  /** The frame a datagram brings, if it has the right size. */
  ghost function Brought(s: Session, d: Datagram): Option<Bytes> {
    if Takes(s.frameBytes, s.table, s.peers, d) then Some(FrameOf(s.frameBytes, s.table, d)) else None
  }

  /** An ear either stays as it was or hears the datagram, whose number it had not accepted before. */
  lemma IncomingEars(s: Session, d: Datagram, i: nat)
    requires s.Matched()
    ensures || Incoming(s, d).EarOf(i) == s.EarOf(i)
            || (&& d.Datagram? && d.header.sequence !in s.EarOf(i).accepted
                && Incoming(s, d).EarOf(i) == HeardEar(s.EarOf(i), d.header.sequence, Brought(s, d)))
  {
  }

  lemma IncomingKeeps(s: Session, d: Datagram)
    requires s.Inv()
    ensures Incoming(s, d).Inv()
  {
    IncomingMatches(s, d);
    forall i ensures Incoming(s, d).EarOf(i).PlaysOnce() {
      IncomingEars(s, d, i);
      if Incoming(s, d).EarOf(i) != s.EarOf(i) {
        HearEar(s.EarOf(i), d.header.sequence, Brought(s, d));
      }
    }
  }

  /** Whatever arrives, nothing is recorded as played. */
  lemma IncomingPlaysNothing(s: Session, d: Datagram)
    requires s.Matched()
    ensures forall id :: id in s.peers ==> id in Incoming(s, d).traces
                                           && Incoming(s, d).traces[id].played == s.traces[id].played
  {
  }

  /** A frame adds the one entry for its slot, and the record did not have it; silence adds nothing. */
  ghost predicate HandsOut(before: Trace, after: Trace, frame: Option<Bytes>, slot: int) {
    && after.epoch == before.epoch
    && if frame.None? then after.played == before.played
       else
         && slot in before.source && (before.source[slot], slot) !in before.played
         && after.played == before.played + {(before.source[slot], slot)}
  }

  ghost function PlayedEar(e: Ear): Ear {
    Ear(Pop(DEFAULT_BUFFER, e.buffer).0, e.accepted, PopTrace(DEFAULT_BUFFER, e.buffer, e.trace))
  }

  lemma PlayEarKeeps(e: Ear)
    requires e.PlaysOnce()
    ensures PlayedEar(e).PlaysOnce()
  {
    PopKeeps(DEFAULT_BUFFER, e.buffer, e.accepted, e.trace);
    PopBounded(DEFAULT_BUFFER, e.buffer);
  }

  lemma PlayEarIsNew(e: Ear)
    requires e.PlaysOnce()
    ensures HandsOut(e.trace, PlayedEar(e).trace, Pop(DEFAULT_BUFFER, e.buffer).1, PlayedEar(e).buffer.next - 1)
  {
    PopKeeps(DEFAULT_BUFFER, e.buffer, e.accepted, e.trace);
  }

  lemma PlayKeeps(s: Session)
    requires s.Inv()
    ensures Play(s).Inv()
  {
    var after := Play(s);
    forall i ensures after.EarOf(i).PlaysOnce() {
      PlayEarKeeps(s.EarOf(i));
      assert after.EarOf(i) in {NEW_EAR, PlayedEar(s.EarOf(i))};
    }
  }

  /** Every peer's buffer gives up the frame whose turn it is, and never one it gave up before. */
  ghost predicate PlaysNew(s: Session, id: nat) {
    var ear := s.EarOf(id);
    && Play(s).EarOf(id) == PlayedEar(ear)
    && HandsOut(ear.trace, PlayedEar(ear).trace, Pop(DEFAULT_BUFFER, s.EarOf(id).buffer).1,
                PlayedEar(ear).buffer.next - 1)
  }

  lemma PlayIsNew(s: Session, id: nat)
    requires s.Inv() && id in s.peers
    ensures PlaysNew(s, id)
  {
    PlayEarIsNew(s.EarOf(id));
  }

  datatype Event =
    | Joins(id: nat, salt: Bytes, senderKey: Option<Bytes>)
    | Leaves(id: nat)
    | Arrives(d: Datagram)
    | Plays

  ghost function Step(s: Session, e: Event): Session {
    match e
    case Joins(id, salt, senderKey) => AddPeer(s, id, salt, senderKey)
    case Leaves(id) => RemovePeer(s, id)
    case Arrives(d) => Incoming(s, d)
    case Plays => Play(s)
  }

  ghost function Run(s: Session, events: seq<Event>): Session {
    if events == [] then s else Step(Run(s, events[..|events| - 1]), events[|events| - 1])
  }

  ghost predicate Initial(s: Session) {
    s.peers == map[] && s.traces == map[] && s.table.senders.Keys == {s.table.ownId}
  }

  lemma StepKeeps(s: Session, e: Event)
    requires s.Inv()
    ensures Step(s, e).Inv()
  {
    match e
    case Joins(id, salt, senderKey) => AddPeerKeeps(s, id, salt, senderKey);
    case Leaves(id) => RemovePeerKeeps(s, id);
    case Arrives(d) => IncomingKeeps(s, d);
    case Plays => PlayKeeps(s);
  }

  lemma InitialInv(s: Session)
    requires Initial(s)
    ensures s.Inv()
  {
    NewEarPlaysOnce();
    assert forall id :: s.EarOf(id) == NEW_EAR;
  }

  lemma {:induction false} EveryRunKeeps(s: Session, events: seq<Event>)
    requires Initial(s)
    ensures Run(s, events).Inv()
  {
    if events == [] {
      InitialInv(s);
    } else {
      EveryRunKeeps(s, events[..|events| - 1]);
      StepKeeps(Run(s, events[..|events| - 1]), events[|events| - 1]);
    }
  }

  /** Whatever the next play hands out for a sender is not in the record; under one salt no duplicate was ever met. */
  lemma NextPlayIsNew(s: Session, events: seq<Event>, id: nat)
    requires Initial(s)
    requires id in Run(s, events).peers
    ensures PlaysNew(Run(s, events), id)
    ensures Run(s, events).EarOf(id).trace.epoch == 0 ==> Run(s, events).peers[id].tally.duplicate == 0
  {
    EveryRunKeeps(s, events);
    var now := Run(s, events);
    PlayIsNew(now, id);
    assert now.EarOf(id).PlaysOnce();
  }

  // The record forgets nothing.

  /** The record of one sender, as long as the sender is there. */
  function Record(s: Session, id: nat): set<(nat, int)> {
    if id in s.traces then s.traces[id].played else {}
  }

  lemma AddPeerForgetsNothing(s: Session, joining: nat, salt: Bytes, senderKey: Option<Bytes>, id: nat)
    requires s.Matched() && id in s.peers
    ensures var after := AddPeer(s, joining, salt, senderKey); id in after.peers && Record(after, id) == Record(s, id)
  {
  }

  lemma PlayForgetsNothing(s: Session, id: nat)
    requires s.Inv() && id in s.peers
    ensures id in Play(s).peers && Record(s, id) <= Record(Play(s), id)
  {
    PlayIsNew(s, id);
  }

  lemma StepForgetsNothing(s: Session, e: Event, id: nat)
    requires s.Inv() && id in s.peers && e != Leaves(id)
    ensures id in Step(s, e).peers && Record(s, id) <= Record(Step(s, e), id)
  {
    match e
    case Joins(joining, salt, senderKey) => AddPeerForgetsNothing(s, joining, salt, senderKey, id);
    case Leaves(_) =>
    case Arrives(d) => IncomingPlaysNothing(s, d);
    case Plays => PlayForgetsNothing(s, id);
  }

  predicate Stays(events: seq<Event>, n: nat, m: nat, id: nat) {
    forall k :: n <= k < m && k < |events| ==> events[k] != Leaves(id)
  }

  /** One event of a run, which leads from one state of it to the next. */
  lemma RecordStep(s: Session, events: seq<Event>, m: nat, id: nat)
    requires Initial(s) && 0 < m <= |events| && events[m - 1] != Leaves(id) && id in Run(s, events[..m - 1]).peers
    ensures id in Run(s, events[..m]).peers
    ensures Record(Run(s, events[..m - 1]), id) <= Record(Run(s, events[..m]), id)
  {
    EveryRunKeeps(s, events[..m - 1]);
    assert events[..m][..m - 1] == events[..m - 1];
    StepForgetsNothing(Run(s, events[..m - 1]), events[m - 1], id);
  }

  /** What a sender's record holds after some events, if the sender is there. */
  ghost predicate Recorded(s: Session, events: seq<Event>, m: nat, id: nat, record: set<(nat, int)>) {
    m <= |events| && id in Run(s, events[..m]).peers && record <= Record(Run(s, events[..m]), id)
  }

  lemma {:induction false} RecordGrows(s: Session, events: seq<Event>, n: nat, m: nat, id: nat, record: set<(nat, int)>)
    requires Initial(s) && n <= m <= |events| && Stays(events, n, m, id) && Recorded(s, events, n, id, record)
    ensures Recorded(s, events, m, id, record)
  {
    if n == m {
    } else {
      assert events[m - 1] != Leaves(id);
      RecordGrows(s, events, n, m - 1, id, record);
      RecordStep(s, events, m, id);
    }
  }

  /** What one buffer hands out next: the registration the frame came in under, and its number. */
  ghost function EarOut(e: Ear): Option<(nat, int)> {
    var slot := Pop(DEFAULT_BUFFER, e.buffer).0.next - 1;
    if Pop(DEFAULT_BUFFER, e.buffer).1.Some? && slot in e.trace.source then Some((e.trace.source[slot], slot)) else None
  }

  /** It is the buffered frame of that number, and is new to the record, which has it from then on. */
  lemma EarHandsOut(e: Ear)
    requires e.PlaysOnce()
    ensures EarOut(e).Some? <==> Pop(DEFAULT_BUFFER, e.buffer).1.Some?
    ensures EarOut(e).Some? ==> && EarOut(e).value !in e.trace.played && EarOut(e).value in PlayedEar(e).trace.played
                                && EarOut(e).value.1 in e.buffer.frames
                                && Some(e.buffer.frames[EarOut(e).value.1]) == Pop(DEFAULT_BUFFER, e.buffer).1
  {
    PopKeeps(DEFAULT_BUFFER, e.buffer, e.accepted, e.trace);
  }

  /** A peer's own frame, buffered under the number whose turn it is, or nothing when no frame is due. */
  ghost predicate DueFrame(e: Ear, frame: Option<Bytes>) {
    match EarOut(e)
    case None => frame == None
    case Some(out) => out.1 in e.buffer.frames && frame == Some(e.buffer.frames[out.1])
  }

  lemma PopIsDue(s: Session, id: nat)
    requires s.Inv() && id in s.peers
    ensures DueFrame(s.EarOf(id), Pop(DEFAULT_BUFFER, s.peers[id]).1)
  {
    EarHandsOut(s.EarOf(id));
  }

  /** What a play hands out: to each peer its own. */
  ghost predicate HandsOutDue(s: Session, frames: map<nat, Option<Bytes>>) {
    frames.Keys == s.peers.Keys && forall id :: id in frames ==> DueFrame(s.EarOf(id), frames[id])
  }

  lemma PlayHandsOutDue(s: Session, frames: map<nat, Option<Bytes>>)
    requires frames.Keys == s.peers.Keys
    requires forall id :: id in frames ==> frames[id] == Pop(DEFAULT_BUFFER, s.peers[id]).1
    ensures s.Inv() ==> HandsOutDue(s, frames)
  {
    if s.Inv() {
      forall id | id in frames ensures DueFrame(s.EarOf(id), frames[id]) {
        PopIsDue(s, id);
      }
    }
  }

  lemma RecordOfEar(s: Session, id: nat)
    requires s.Matched()
    ensures Record(s, id) == s.EarOf(id).trace.played
  {
  }

  /** What the next play hands out for a sender. */
  ghost function NextOut(s: Session, id: nat): Option<(nat, int)> {
    EarOut(s.EarOf(id))
  }

  lemma NextIsUnrecorded(s: Session, id: nat)
    requires s.Inv() && NextOut(s, id).Some?
    ensures NextOut(s, id).value !in Record(s, id)
  {
    RecordOfEar(s, id);
    EarHandsOut(s.EarOf(id));
  }

  lemma PlayRecords(s: Session, id: nat)
    requires s.Inv() && id in s.peers && NextOut(s, id).Some?
    ensures id in Play(s).peers && NextOut(s, id).value in Record(Play(s), id)
  {
    PlayIsNew(s, id);
    EarHandsOut(s.EarOf(id));
    PlayKeeps(s);
    RecordOfEar(Play(s), id);
  }

  /** What a play of a run hands out is on record right after it. */
  lemma PlayedIsRecorded(s: Session, events: seq<Event>, i: nat, id: nat)
    requires Initial(s) && i < |events| && events[i] == Plays
    requires id in Run(s, events[..i]).peers && NextOut(Run(s, events[..i]), id).Some?
    ensures id in Run(s, events[..i + 1]).peers
    ensures NextOut(Run(s, events[..i]), id).value in Record(Run(s, events[..i + 1]), id)
  {
    EveryRunKeeps(s, events[..i]);
    assert events[..i + 1][..i] == events[..i];
    PlayRecords(Run(s, events[..i]), id);
  }

  /**
   The end-to-end promise. In any run of joins, departures, new salts, and datagrams duplicated, replayed or forged at
   will, two plays never hand out the same frame of a sender who stays: the same number under the same registration.
  */
  lemma NothingIsPlayedTwice(s: Session, events: seq<Event>, i: nat, j: nat, id: nat)
    requires Initial(s) && i < j < |events| && events[i] == Plays && events[j] == Plays
    requires id in Run(s, events[..i]).peers && Stays(events, i, j, id)
    requires NextOut(Run(s, events[..i]), id).Some?
    ensures NextOut(Run(s, events[..i]), id) != NextOut(Run(s, events[..j]), id)
  {
    PlayedIsRecorded(s, events, i, id);
    RecordGrows(s, events, i + 1, j, id, Record(Run(s, events[..i + 1]), id));
    EveryRunKeeps(s, events[..j]);
    if NextOut(Run(s, events[..j]), id).Some? {
      NextIsUnrecorded(Run(s, events[..j]), id);
    }
  }

  // A number counts as a duplicate after all: the run that shows it.

  /** One audio frame as its sender seals it. */
  function Frame(key: VoiceKey, id: nat, sequence: nat, audio: Bytes): Datagram {
    var header := Header(PROTOCOL_VERSION, TYPE_AUDIO, id, sequence, 0);
    Datagram(header, Sealed(key, Nonce(id, sequence), header, audio))
  }

  /** The same number under two salts, the first frame not yet played when the second one comes. */
  function ResaltRun(id: nat, one: Bytes, other: Bytes, senderKey: Bytes, sequence: nat, audio: Bytes): seq<Event> {
    [Joins(id, one, Some(senderKey)), Arrives(Frame(VoiceKey(senderKey, one, id), id, sequence, audio)),
     Joins(id, other, Some(senderKey)), Arrives(Frame(VoiceKey(senderKey, other, id), id, sequence, audio))]
  }

  lemma RunOfFour(s: Session, a: Event, b: Event, c: Event, d: Event)
    ensures Run(s, [a, b, c, d]) == Step(Step(Step(Step(s, a), b), c), d)
  {
    assert [a, b, c, d][..3] == [a, b, c] && [a, b, c][..2] == [a, b] && [a, b][..1] == [a] && [a][..0] == [];
    assert Run(s, [a]) == Step(Run(s, []), a);
    assert Run(s, [a, b]) == Step(Run(s, [a]), b);
    assert Run(s, [a, b, c]) == Step(Run(s, [a, b]), c);
  }

  /** A frame of the right size under the registered key is taken by an empty window. */
  lemma FirstFrameIsTaken(s: Session, id: nat, sequence: nat, audio: Bytes)
    requires id in s.peers && id in s.table.senders && id != s.table.ownId
    requires s.table.senders[id].window == START
    requires |audio| == s.frameBytes + TIMING_BYTES && HEADER_BYTES + |audio| + TAG_BYTES <= MAX_DATAGRAM_BYTES
    ensures FateOf(s.frameBytes, s.table, s.peers, Frame(s.table.senders[id].key, id, sequence, audio)) == Taken
  {
    var d := Frame(s.table.senders[id].key, id, sequence, audio);
    assert Open(s.table, d) == Ok((d.header, audio));
  }

  /** A salt that is not the present one gives an empty window, and the key that goes with it. */
  lemma NewSaltIsFresh(s: Session, id: nat, salt: Bytes, senderKey: Bytes)
    requires s.Matched() && id != s.table.ownId && id <= MAX_SENDER_ID
    requires |salt| == SALT_BYTES && |senderKey| == SENDER_KEY_BYTES
    requires id in s.table.senders ==> s.table.senders[id].salt != salt
    ensures var after := AddPeer(s, id, salt, Some(senderKey));
            && after.Matched() && id in after.peers && id in after.table.senders
            && after.table.senders[id] == Registration(salt, VoiceKey(senderKey, salt, id), START)
            && after.table.ownId == s.table.ownId && after.frameBytes == s.frameBytes
  {
    AddPeerMatches(s, id, salt, Some(senderKey));
  }

  /** And pushed into the sender's buffer. */
  lemma FirstFrameArrives(s: Session, id: nat, sequence: nat, audio: Bytes)
    requires id in s.peers && id in s.traces && id in s.table.senders && id != s.table.ownId
    requires s.table.senders[id].window == START
    requires |audio| == s.frameBytes + TIMING_BYTES && HEADER_BYTES + |audio| + TAG_BYTES <= MAX_DATAGRAM_BYTES
    ensures var after := Incoming(s, Frame(s.table.senders[id].key, id, sequence, audio));
            && id in after.peers && id in after.traces && id in after.table.senders
            && after.peers[id] == Push(DEFAULT_BUFFER, s.peers[id], sequence, audio[..s.frameBytes]).0
            && after.table.ownId == s.table.ownId && after.frameBytes == s.frameBytes
            && after.table.senders[id].salt == s.table.senders[id].salt
  {
    var d := Frame(s.table.senders[id].key, id, sequence, audio);
    assert Open(s.table, d) == Ok((d.header, audio));
  }

  /** The session does receive it: a new salt lets a number in again while its frame of the old salt still waits. */
  lemma ResaltCanDuplicate(s: Session, id: nat, one: Bytes, other: Bytes, senderKey: Bytes, sequence: nat, audio: Bytes)
    requires Initial(s) && id != s.table.ownId && id <= MAX_SENDER_ID
    requires |one| == |other| == SALT_BYTES && one != other && |senderKey| == SENDER_KEY_BYTES
    requires |audio| == s.frameBytes + TIMING_BYTES && HEADER_BYTES + |audio| + TAG_BYTES <= MAX_DATAGRAM_BYTES
    ensures var end := Run(s, ResaltRun(id, one, other, senderKey, sequence, audio));
            id in end.peers && end.peers[id].tally.duplicate == 1
  {
    var run := ResaltRun(id, one, other, senderKey, sequence, audio);
    RunOfFour(s, run[0], run[1], run[2], run[3]);
    var joined := AddPeer(s, id, one, Some(senderKey));
    FirstFrameArrives(joined, id, sequence, audio);
    var heard := Incoming(joined, run[1].d);
    var resalted := AddPeer(heard, id, other, Some(senderKey));
    FirstFrameArrives(resalted, id, sequence, audio);
  }

  // A salt that comes back.

  /** A recorded frame, played back after its sender's salt went and returned. */
  function ReturnRun(id: nat, one: Bytes, other: Bytes, senderKey: Bytes, d: Datagram): seq<Event> {
    [Joins(id, one, Some(senderKey)), Arrives(d), Joins(id, other, Some(senderKey)), Joins(id, one, Some(senderKey))]
  }

  /** The session takes it a second time: under the returned salt the window is empty again. */
  lemma ReturningSaltReplays(s: Session, id: nat, one: Bytes, other: Bytes, senderKey: Bytes, sequence: nat,
                             audio: Bytes)
    requires Initial(s) && id != s.table.ownId && id <= MAX_SENDER_ID
    requires |one| == |other| == SALT_BYTES && one != other && |senderKey| == SENDER_KEY_BYTES
    requires |audio| == s.frameBytes + TIMING_BYTES && HEADER_BYTES + |audio| + TAG_BYTES <= MAX_DATAGRAM_BYTES
    ensures var d := Frame(VoiceKey(senderKey, one, id), id, sequence, audio);
            var joined := Run(s, [Joins(id, one, Some(senderKey))]);
            var returned := Run(s, ReturnRun(id, one, other, senderKey, d));
            && FateOf(joined.frameBytes, joined.table, joined.peers, d) == Taken
            && FateOf(returned.frameBytes, returned.table, returned.peers, d) == Taken
  {
    var d := Frame(VoiceKey(senderKey, one, id), id, sequence, audio);
    var run := ReturnRun(id, one, other, senderKey, d);
    RunOfFour(s, run[0], run[1], run[2], run[3]);
    assert [run[0]][..0] == [];
    var joined := AddPeer(s, id, one, Some(senderKey));
    assert Run(s, [run[0]]) == Step(Run(s, []), run[0]) == joined;
    NewSaltIsFresh(s, id, one, senderKey);
    FirstFrameIsTaken(joined, id, sequence, audio);
    FirstFrameArrives(joined, id, sequence, audio);
    IncomingMatches(joined, d);
    var away := AddPeer(Incoming(joined, d), id, other, Some(senderKey));
    NewSaltIsFresh(Incoming(joined, d), id, other, senderKey);
    NewSaltIsFresh(away, id, one, senderKey);
    FirstFrameIsTaken(AddPeer(away, id, one, Some(senderKey)), id, sequence, audio);
  }
}

/**
 One person's voice session. Its cipher and its buffers are held as the values the classes VoiceCipher and
 JitterBuffer compute; mixing and the measurements are left out.
*/
module VoiceSessions {
  import opened Common
  import opened VoicePackets
  import Cipher = CipherSpec
  import opened CipherSpec
  import opened JitterSpec
  import opened PlayedOnce
  import Spec = SessionSpec
  import opened SessionSpec

  /** Visits every entry of a dictionary once. */
  method ForEach<A, B>(entries: map<nat, A>, visit: A -> B) returns (results: map<nat, B>)
    ensures results.Keys == entries.Keys
    ensures forall id :: id in entries ==> results[id] == visit(entries[id])
  {
    results := map[];
    var todo := entries.Keys;
    while todo != {}
      invariant todo <= entries.Keys && results.Keys == entries.Keys - todo
      invariant forall id :: id in results ==> results[id] == visit(entries[id])
      decreases |todo|
    {
      assert (forall id :: id !in todo) ==> todo == {};
      var id :| id in todo;
      results := results[id := visit(entries[id])];
      todo := todo - {id};
    }
  }

  class VoiceSession {
    const senderId: nat
    const frameBytes: nat
    var table: Table
    var peers: map<nat, Jitter<Bytes>>
    var received: nat
    var undecryptable: nat
    var malformed: nat
    ghost var traces: map<nat, Trace>

    ghost function State(): Session
      reads this
    {
      Session(frameBytes, table, peers, traces)
    }

    ghost predicate Valid()
      reads this
    {
      table.ownId == senderId && State().Matched()
    }

    constructor (senderId: nat, frameBytes: nat, own: Registration)
      ensures Valid() && Initial(State())
    {
      this.senderId, this.frameBytes := senderId, frameBytes;
      table := Table(senderId, own.salt, map[senderId := own]);
      peers, traces := map[], map[];
      received, undecryptable, malformed := 0, 0, 0;
    }

    method AddPeer(id: nat, salt: Bytes, senderKey: Option<Bytes>) returns (e: Option<VoiceError>)
      requires Valid()
      modifies this`table, this`peers, this`traces
      ensures Valid() && State() == Spec.AddPeer(old(State()), id, salt, senderKey)
      ensures var r := Register(old(table), id, salt, senderKey);
              e == if id == senderId || r.Ok? then None else Some(r.error)
    {
      if id == senderId {
        return None;
      }
      var added := Register(table, id, salt, senderKey);
      if added.Err? {
        return Some(added.error);
      }
      if id !in peers {
        peers := peers[id := Fresh(DEFAULT_BUFFER)];
        traces := traces[id := UNHEARD];
      } else if table.senders[id].salt != salt {
        traces := traces[id := NextEpoch(traces[id])];
      }
      table := added.value;
      return None;
    }

    method RemovePeer(id: nat)
      requires Valid()
      modifies this`table, this`peers, this`traces
      ensures Valid() && State() == Spec.RemovePeer(old(State()), id)
    {
      peers := peers - {id};
      traces := traces - {id};
      table := Cipher.Forget(table, id);
    }

    /**
     One datagram from the network. The result is the packet error that escapes to the caller: opening raises it
     for an oversized or empty packet, and only decryption errors are caught.
    */
    method Incoming(d: Datagram) returns (escaped: Option<VoiceError>)
      requires Valid()
      modifies this
      ensures Valid() && State() == Spec.Incoming(old(State()), d)
      ensures var fate := FateOf(frameBytes, old(table), old(peers), d);
              && escaped == (if fate == Escapes then Some(Malformed) else None)
              && received == old(received) + (if fate == Taken then 1 else 0)
              && undecryptable == old(undecryptable) + (if fate == Unopened then 1 else 0)
              && malformed == old(malformed) + (if fate in {NoHeader, WrongSize} then 1 else 0)
    {
      var preview := DecodeHeader(d);
      if preview.Err? {
        malformed := malformed + 1;
        return None;
      }
      var id := preview.value.sender;
      if id == senderId || id !in peers {
        return None;
      }
      var outcome := Open(table, d);
      if outcome.Err? {
        if outcome.error == Malformed {
          return Some(Malformed);
        }
        undecryptable := undecryptable + 1;
        return None;
      }
      var (header, body) := outcome.value;
      if |body| != frameBytes + TIMING_BYTES {
        table := Opened(table, d);
        malformed := malformed + 1;
        return None;
      }
      traces := traces[id := PushTrace(DEFAULT_BUFFER, peers[id], traces[id], header.sequence, body[..frameBytes])];
      table := Opened(table, d);
      peers := peers[id := Push(DEFAULT_BUFFER, peers[id], header.sequence, body[..frameBytes]).0];
      received := received + 1;
      return None;
    }

    method PopAll() returns (turns: map<nat, (Jitter<Bytes>, Option<Bytes>)>)
      ensures turns == Turns(peers)
    {
      turns := ForEach(peers, (buffer: Jitter<Bytes>) => Pop(DEFAULT_BUFFER, buffer));
    }

    /** Every buffer is popped once: what that leaves, and to each peer its own frame. */
    method PopFrames() returns (left: map<nat, Jitter<Bytes>>, frames: map<nat, Option<Bytes>>)
      ensures left == Lefts(Turns(peers)) && frames.Keys == peers.Keys
      ensures forall id :: id in frames ==> frames[id] == Pop(DEFAULT_BUFFER, peers[id]).1
    {
      var turns := PopAll();
      left, frames := Lefts(turns), Rights(turns);
    }

    /** One frame time. */
    method Play() returns (frames: map<nat, Option<Bytes>>)
      requires Valid()
      modifies this`peers, this`traces
      ensures Valid() && State() == Spec.Play(old(State()))
      ensures frames.Keys == old(peers).Keys
      ensures forall id :: id in frames ==> frames[id] == Pop(DEFAULT_BUFFER, old(peers)[id]).1
      ensures old(State().Inv()) ==> HandsOutDue(old(State()), frames)
    {
      var left: map<nat, Jitter<Bytes>>;
      ghost var before := State();
      left, frames := PopFrames();
      traces := PoppedTraces(peers, traces);
      peers := left;
      assert State() == Spec.Play(before);
      PlayHandsOutDue(before, frames);
    }
  }
}
