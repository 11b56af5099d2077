/** The datagram format of the voice path, with ideal authenticated encryption. */
module VoicePackets {
  import opened Common

  const PROTOCOL_VERSION: nat := 1
  const TYPE_AUDIO: nat := 1
  const TYPE_HELLO: nat := 2
  const HEADER_BYTES: nat := 18
  const TAG_BYTES: nat := 16
  const MAX_DATAGRAM_BYTES: nat := 1200
  const MAX_SENDER_ID: nat := 0xFFFF_FFFF
  const MAX_SEQUENCE: nat := 0xFFFF_FFFF_FFFF_FFFF
  const TIMESTAMP_MODULO: nat := 0x1_0000_0000

  type Bytes = seq<byte>

  datatype Header = Header(version: nat, kind: nat, sender: nat, sequence: nat, stamp: nat)

  /** The key of one sender in one voice session: key derivation is injective in its three inputs. */
  datatype VoiceKey = VoiceKey(senderKey: Bytes, salt: Bytes, sender: nat)

  datatype Nonce = Nonce(sender: nat, sequence: nat)

  /** `Sealed` opens only with the same key, nonce and header; `Noise` opens with nothing. */
  datatype Body = Sealed(key: VoiceKey, nonce: Nonce, aad: Header, audio: Bytes) | Noise(bytes: nat)

  /** `Stub` is shorter than a header. */
  datatype Datagram = Stub | Datagram(header: Header, body: Body)

  datatype VoiceError = Malformed | UnknownSender | Undecryptable | Replay | SequenceReuse
                      | BadSalt | BadSenderKey | SenderKeyMissing | BadSenderId | OwnIdTaken

  function BodyBytes(b: Body): nat {
    match b
    case Sealed(_, _, _, audio) => |audio| + TAG_BYTES
    case Noise(bytes) => bytes
  }

  function DecodeHeader(d: Datagram): Result<Header, VoiceError> {
    if d.Stub? || d.header.version != PROTOCOL_VERSION || d.header.kind !in {TYPE_AUDIO, TYPE_HELLO}
    then Err(Malformed)
    else Ok(d.header)
  }

  function EncodeHeader(sender: int, sequence: int, stamp: int, kind: byte): (r: Result<Header, VoiceError>)
    ensures r.Ok? <==> 0 <= sender <= MAX_SENDER_ID && 0 <= sequence <= MAX_SEQUENCE
    ensures r.Ok? && kind in {TYPE_AUDIO, TYPE_HELLO} ==> DecodeHeader(Datagram(r.value, Noise(0))) == r
    ensures r.Ok? && kind !in {TYPE_AUDIO, TYPE_HELLO} ==> DecodeHeader(Datagram(r.value, Noise(0))) == Err(Malformed)
    ensures r.Ok? ==> && r.value.version == PROTOCOL_VERSION && r.value.stamp == stamp % TIMESTAMP_MODULO
                      && r.value.sender == sender && r.value.sequence == sequence && r.value.kind == kind
                      && r.value.stamp < TIMESTAMP_MODULO && (stamp - r.value.stamp) % TIMESTAMP_MODULO == 0
  {
    if !(0 <= sender <= MAX_SENDER_ID) || !(0 <= sequence <= MAX_SEQUENCE) then Err(Malformed)
    else Ok(Header(PROTOCOL_VERSION, kind, sender, sequence, stamp % TIMESTAMP_MODULO))
  }

  function Pack(header: Header, body: Body): Result<Datagram, VoiceError> {
    if HEADER_BYTES + BodyBytes(body) > MAX_DATAGRAM_BYTES then Err(Malformed) else Ok(Datagram(header, body))
  }

  predicate WellFormed(d: Datagram) {
    d.Datagram? && HEADER_BYTES + BodyBytes(d.body) <= MAX_DATAGRAM_BYTES && DecodeHeader(d).Ok?
    && BodyBytes(d.body) > 0
  }

  function Decrypt(key: VoiceKey, header: Header, body: Body): Option<Bytes> {
    if body.Sealed? && body.key == key && body.nonce == Nonce(header.sender, header.sequence) && body.aad == header
    then Some(body.audio) else None
  }
}

/** What registering a sender and opening a datagram do to the table of known senders. */
module CipherSpec {
  import opened Common
  import opened VoicePackets
  import opened ReplayWindows

  const SALT_BYTES: nat := 16
  const SENDER_KEY_BYTES: nat := 32
  const REPLAY_WINDOW_SIZE: nat := 64

  /** One sender under one salt: the session key and the numbers already accepted. */
  datatype Registration = Registration(salt: Bytes, key: VoiceKey, window: Reference)

  datatype Table = Table(ownId: nat, ownSalt: Bytes, senders: map<nat, Registration>)

  /** The same salt again changes nothing; a new salt is a new session with an empty window. */
  function Register(t: Table, id: nat, salt: Bytes, senderKey: Option<Bytes>): Result<Table, VoiceError> {
    if |salt| != SALT_BYTES then Err(BadSalt)
    else if id != t.ownId && senderKey.None? then Err(SenderKeyMissing)
    else if id != t.ownId && |senderKey.value| != SENDER_KEY_BYTES then Err(BadSenderKey)
    else if id == t.ownId then (if salt != t.ownSalt then Err(OwnIdTaken) else Ok(t))
    else if id in t.senders && t.senders[id].salt == salt then Ok(t)
    else if id > MAX_SENDER_ID then Err(BadSenderId)
    else Ok(t.(senders := t.senders[id := Registration(salt, VoiceKey(senderKey.value, salt, id), START)]))
  }

  function Forget(t: Table, id: nat): Table {
    if id == t.ownId then t else t.(senders := t.senders - {id})
  }

  /** Decrypt first, consult the window afterwards. */
  function Open(t: Table, d: Datagram): (r: Result<(Header, Bytes), VoiceError>)
    ensures r.Err? ==> (r.error == Malformed <==> !WellFormed(d))
  {
    if !WellFormed(d) then Err(Malformed)
    else if d.header.sender !in t.senders then Err(UnknownSender)
    else
      var sender := t.senders[d.header.sender];
      var audio := Decrypt(sender.key, d.header, d.body);
      if audio.None? then Err(Undecryptable)
      else if !Admits(sender.window, REPLAY_WINDOW_SIZE, d.header.sequence) then Err(Replay)
      else Ok((d.header, audio.value))
  }

  /**
   A datagram opens exactly if it is well formed, sealed by its known sender for its own header, and new to the
   window.
  */
  lemma OpensExactly(t: Table, d: Datagram)
    ensures Open(t, d).Ok? <==>
            && WellFormed(d) && d.header.sender in t.senders
            && var sender := t.senders[d.header.sender];
            && d.body.Sealed? && d.body.key == sender.key && d.body.aad == d.header
            && d.body.nonce == Nonce(d.header.sender, d.header.sequence)
            && d.header.sequence !in sender.window.accepted
            && d.header.sequence > sender.window.highest - REPLAY_WINDOW_SIZE
    ensures Open(t, d).Ok? ==> Open(t, d).value == (d.header, d.body.audio)
    ensures Open(t, d) == Err(UnknownSender) <==> WellFormed(d) && d.header.sender !in t.senders
    ensures Open(t, d) == Err(Replay) <==>
            && WellFormed(d) && d.header.sender in t.senders
            && var sender := t.senders[d.header.sender];
            && d.body.Sealed? && d.body.key == sender.key && d.body.aad == d.header
            && d.body.nonce == Nonce(d.header.sender, d.header.sequence)
            && (d.header.sequence in sender.window.accepted
                || d.header.sequence <= sender.window.highest - REPLAY_WINDOW_SIZE)
    ensures Open(t, d).Err? ==> Open(t, d).error in {Malformed, UnknownSender, Undecryptable, Replay}
  {
  }

  /**
   A registration is refused exactly for a malformed salt or key, a missing key, our own id under another salt, or a
   bad id.
  */
  lemma RegistersExactly(t: Table, id: nat, salt: Bytes, senderKey: Option<Bytes>)
    ensures Register(t, id, salt, senderKey).Ok? <==>
            && |salt| == 16
            && (id == t.ownId ==> salt == t.ownSalt)
            && (id != t.ownId ==> && senderKey.Some? && |senderKey.value| == 32
                                  && (id <= MAX_SENDER_ID || (id in t.senders && t.senders[id].salt == salt)))
    ensures Register(t, id, salt, senderKey).Ok? ==>
              var after := Register(t, id, salt, senderKey).value;
              && after == t.(senders := after.senders)
              && (forall other :: other != id ==> (other in after.senders <==> other in t.senders)
                                                  && (other in t.senders ==> after.senders[other] == t.senders[other]))
              && (id != t.ownId ==> id in after.senders && after.senders[id].salt == salt)
              && (id == t.ownId || (id in t.senders && t.senders[id].salt == salt) ==> after == t)
  {
  }

  function Opened(t: Table, d: Datagram): Table {
    if Open(t, d).Err? then t
    else
      var sender := t.senders[d.header.sender];
      t.(senders := t.senders[d.header.sender :=
      sender.(window := Admit(sender.window, REPLAY_WINDOW_SIZE, d.header.sequence))])
  }

  /** Datagrams delivered, senders registered and senders leaving, in any order. */
  datatype Event = Deliver(d: Datagram) | Announce(id: nat, salt: Bytes, senderKey: Option<Bytes>) | Depart(id: nat)

  function After(t: Table, e: Event): Table {
    match e
    case Deliver(d) => Opened(t, d)
    case Announce(id, salt, senderKey) => var r := Register(t, id, salt, senderKey); if r.Ok? then r.value else t
    case Depart(id) => Forget(t, id)
  }

  function Run(t: Table, events: seq<Event>): Table
    decreases |events|
  {
    if events == [] then t else Run(After(t, events[0]), events[1..])
  }

  /** Whether an event ends the registration of `id` under `salt`: by another salt, or by its departure. */
  predicate Ends(e: Event, id: nat, salt: Bytes) {
    (e.Announce? && e.id == id && e.salt != salt) || (e.Depart? && e.id == id)
  }

  /** One registration goes on throughout; our own cannot be ended. */
  predicate Unbroken(t: Table, events: seq<Event>, id: nat) {
    id in t.senders && (id == t.ownId || forall i :: 0 <= i < |events| ==> !Ends(events[i], id, t.senders[id].salt))
  }

  /** While a registration goes on, its window only grows. */
  lemma {:induction false} WindowsGrow(t: Table, events: seq<Event>, id: nat)
    requires Unbroken(t, events, id)
    ensures id in Run(t, events).senders
    ensures t.senders[id].window.accepted <= Run(t, events).senders[id].window.accepted
    ensures Run(t, events).senders[id].salt == t.senders[id].salt
    decreases |events|
  {
    if events == [] {
    } else {
      WindowsGrow(After(t, events[0]), events[1..], id);
    }
  }

  /**
   Under one unbroken registration, our own included, no sequence number opens twice, whatever happens in between:
   duplicates, replays, forgeries, and other senders who talk, register, change their salt or leave.
  */
  lemma OpensOnce(t: Table, first: Datagram, between: seq<Event>, again: Datagram)
    requires Open(t, first).Ok? && Unbroken(t, between, first.header.sender)
    requires again.Datagram? && again.header.sender == first.header.sender
    requires again.header.sequence == first.header.sequence
    ensures Open(Run(Opened(t, first), between), again).Err?
  {
    WindowsGrow(Opened(t, first), between, first.header.sender);
  }

  /**
   A broken registration does not keep that promise. When another salt has been announced in between, what opened
   before opens again exactly when the salt now announced, with its sender key, leads to the same session key as then.
  */
  lemma OpensAgainExactly(t: Table, d: Datagram, other: Bytes, otherKey: Bytes, salt: Bytes, senderKey: Bytes)
    requires Open(t, d).Ok? && d.header.sender != t.ownId && d.header.sender <= MAX_SENDER_ID
    requires |other| == |salt| == SALT_BYTES && |otherKey| == |senderKey| == SENDER_KEY_BYTES
    requires other != t.senders[d.header.sender].salt && other != salt
    ensures var id := d.header.sender;
            var between := [Announce(id, other, Some(otherKey)), Announce(id, salt, Some(senderKey))];
            Open(Run(Opened(t, d), between), d).Ok? <==> VoiceKey(senderKey, salt, id) == t.senders[id].key
  {
    var id := d.header.sender;
    var opened' := Opened(t, d);
    var first, second := Announce(id, other, Some(otherKey)), Announce(id, salt, Some(senderKey));
    assert [first, second][1..] == [second] && [second][1..] == [];
    assert Run(opened', [first, second]) == Run(After(opened', first), [second]);
    assert Run(After(opened', first), [second]) == Run(After(After(opened', first), second), []);
    assert After(After(opened', first), second).senders[id] == Registration(salt, VoiceKey(senderKey, salt, id), START);
  }
}

/** Sealing and opening voice frames: one replay window per registered sender. */
module VoiceCiphers {
  import opened Common
  import opened VoicePackets
  import opened ReplayWindows
  import Spec = CipherSpec
  import opened CipherSpec

  datatype Sender = Sender(salt: Bytes, key: VoiceKey, window: ReplayWindow)

  class VoiceCipher {
    const senderId: nat
    const ownKey: Bytes
    const salt: Bytes
    var lastSequence: int
    var senders: map<nat, Sender>
    var keys: map<nat, Bytes>
    /** The senders with their windows as values. */
    ghost var table: map<nat, Registration>
    /** Every datagram `Seal` has returned, in order. */
    ghost var issued: seq<Datagram>
    /** Every window ever made for a sender. */
    ghost var windows: set<ReplayWindow>

    ghost predicate Mirrors(id: nat)
      requires id in senders && id in table
      reads this`senders, this`table, senders[id].window
    {
      var sender := senders[id];
      && sender.window.Valid() && sender.window.size == REPLAY_WINDOW_SIZE
      && table[id] == Registration(sender.salt, sender.key, sender.window.View())
    }

    ghost predicate Valid()
      reads this`senders, this`table, this`windows, windows
    {
      && senderId in senders && senders[senderId].salt == salt
      && table.Keys == senders.Keys
      && (forall id :: id in senders ==> senders[id].window in windows && Mirrors(id))
      && (forall id, id' :: id in senders && id' in senders && id != id' ==> senders[id].window != senders[id'].window)
    }

    ghost function View(): Table
      reads this`table
    {
      Table(senderId, salt, table)
    }

    /** The nonces of everything sealed so far, strictly increasing. */
    ghost predicate IssuedInOrder()
      reads this`issued, this`lastSequence
    {
      && lastSequence >= -1
      && (forall i :: 0 <= i < |issued| ==>
                        && issued[i].Datagram? && issued[i].body.Sealed?
                        && issued[i].body.key == VoiceKey(ownKey, salt, senderId)
                        && issued[i].body.nonce == Nonce(senderId, issued[i].header.sequence)
                        && issued[i].header.sequence <= lastSequence)
      && (forall i, j :: 0 <= i < j < |issued| ==> issued[i].header.sequence < issued[j].header.sequence)
    }

    constructor (ownKey: Bytes, senderId: nat, salt: Bytes)
      requires |ownKey| == SENDER_KEY_BYTES && senderId <= MAX_SENDER_ID && |salt| == SALT_BYTES
      ensures Valid() && IssuedInOrder() && fresh(windows) && issued == [] && lastSequence == -1
              && this.ownKey == ownKey
      ensures View() == Table(senderId, salt,
                              map[senderId := Registration(salt, VoiceKey(ownKey, salt, senderId), START)])
    {
      var window := new ReplayWindow(REPLAY_WINDOW_SIZE);
      this.senderId, this.ownKey, this.salt := senderId, ownKey, salt;
      lastSequence, issued, keys := -1, [], map[];
      windows := {window};
      senders := map[senderId := Sender(salt, VoiceKey(ownKey, salt, senderId), window)];
      table := map[senderId := Registration(salt, VoiceKey(ownKey, salt, senderId), START)];
    }

    /** What speaks against it: a malformed salt, a peer without a proper key, or our own id under another salt. */
    function Refusal(id: nat, newSalt: Bytes, senderKey: Option<Bytes>): Option<VoiceError> {
      if |newSalt| != SALT_BYTES then Some(BadSalt)
      else if id == senderId then (if newSalt != salt then Some(OwnIdTaken) else None)
      else if senderKey.None? then Some(SenderKeyMissing)
      else if |senderKey.value| != SENDER_KEY_BYTES then Some(BadSenderKey)
      else None
    }

    method RememberKey(id: nat, senderKey: Bytes)
      requires Valid()
      modifies this`keys
      ensures Valid() && keys == old(keys)[id := senderKey]
    {
      keys := keys[id := senderKey];
    }

    method Install(id: nat, newSalt: Bytes, key: VoiceKey)
      requires Valid() && id != senderId
      modifies this`senders, this`table, this`windows
      ensures Valid() && fresh(windows - old(windows))
      ensures View() == old(View()).(senders := old(View()).senders[id := Registration(newSalt, key, START)])
    {
      var window := new ReplayWindow(REPLAY_WINDOW_SIZE);
      windows := windows + {window};
      senders := senders[id := Sender(newSalt, key, window)];
      table := table[id := Registration(newSalt, key, START)];
    }

    /** The same salt keeps the session as it is; a new one replaces it. */
    method Renew(id: nat, newSalt: Bytes) returns (e: Option<VoiceError>)
      requires Valid() && id != senderId && |newSalt| == SALT_BYTES && id in keys && |keys[id]| == SENDER_KEY_BYTES
      modifies this`senders, this`table, this`windows
      ensures Valid() && fresh(windows - old(windows))
      ensures var r := Register(old(View()), id, newSalt, Some(keys[id]));
              if r.Ok? then e == None && View() == r.value else e == Some(r.error) && View() == old(View())
    {
      if id in senders && senders[id].salt == newSalt {
        return None;
      }
      if id > MAX_SENDER_ID {
        return Some(BadSenderId);
      }
      Install(id, newSalt, VoiceKey(keys[id], newSalt, id));
      return None;
    }

    method AddSender(id: nat, newSalt: Bytes, senderKey: Option<Bytes>) returns (e: Option<VoiceError>)
      requires Valid()
      modifies this`senders, this`keys, this`table, this`windows
      ensures Valid() && fresh(windows - old(windows))
      ensures var r := Register(old(View()), id, newSalt, senderKey);
              if r.Ok? then e == None && View() == r.value else e == Some(r.error) && View() == old(View())
    {
      var refused := Refusal(id, newSalt, senderKey);
      if id == senderId || refused.Some? {
        return refused;
      }
      RememberKey(id, senderKey.value);
      e := Renew(id, newSalt);
    }

    method Forget(id: nat)
      requires Valid()
      modifies this`senders, this`keys, this`table
      ensures Valid() && windows == old(windows)
      ensures View() == Spec.Forget(old(View()), id)
    {
      if id != senderId {
        senders, table := senders - {id}, table - {id};
        keys := keys - {id};
      }
    }

    /** A number at or below the last one used is refused, so no nonce is issued twice. */
    method Seal(audio: Bytes, sequence: int, stamp: int) returns (r: Result<Datagram, VoiceError>)
      requires IssuedInOrder()
      modifies this`lastSequence, this`issued
      ensures IssuedInOrder()
      ensures r == Err(SequenceReuse) <==> sequence <= old(lastSequence)
      ensures r.Ok? <==> old(lastSequence) < sequence <= MAX_SEQUENCE && senderId <= MAX_SENDER_ID
                         && HEADER_BYTES + |audio| + TAG_BYTES <= MAX_DATAGRAM_BYTES
      ensures r.Ok? ==> issued == old(issued) + [r.value] && lastSequence == sequence
      ensures r.Err? ==> issued == old(issued) && lastSequence == old(lastSequence)
      ensures r.Ok? ==> r.value.Datagram? && r.value.body.Sealed?
                        && forall d :: d in old(issued) ==>
                                         d.Datagram? && d.body.Sealed? && d.body.nonce != r.value.body.nonce
      ensures r.Ok? ==> WellFormed(r.value) && r.value.header.sender == senderId && r.value.header.sequence == sequence
                        && r.value.header.kind == TYPE_AUDIO && r.value.header.stamp == stamp % TIMESTAMP_MODULO
                        && Decrypt(VoiceKey(ownKey, salt, senderId), r.value.header, r.value.body) == Some(audio)
    {
      if sequence <= lastSequence {
        return Err(SequenceReuse);
      }
      var header := EncodeHeader(senderId, sequence, stamp, TYPE_AUDIO);
      if header.Err? {
        return Err(header.error);
      }
      r := Pack(header.value, Sealed(VoiceKey(ownKey, salt, senderId), Nonce(senderId, sequence), header.value, audio));
      if r.Ok? {
        lastSequence := sequence;
        issued := issued + [r.value];
      }
    }

    /** A packet that fails for any reason leaves every window as it was. */
    method Open(d: Datagram) returns (r: Result<(Header, Bytes), VoiceError>)
      requires Valid()
      modifies windows, this`table
      ensures Valid()
      ensures r == Spec.Open(old(View()), d) && View() == Opened(old(View()), d)
    {
      if !WellFormed(d) {
        return Err(Malformed);
      }
      if d.header.sender !in senders {
        return Err(UnknownSender);
      }
      var sender := senders[d.header.sender];
      var audio := Decrypt(sender.key, d.header, d.body);
      if audio.None? {
        return Err(Undecryptable);
      }
      assert Mirrors(d.header.sender);
      table := Opened(View(), d).senders;
      var unseen := sender.window.Check(d.header.sequence);
      if !unseen.value {
        return Err(Replay);
      }
      return Ok((d.header, audio.value));
    }
  }
}
