/** What a room session knows about its peers' keys, and what each key packet does to it. */
module SessionKeys {
  import opened Common
  import opened KeyAgreement

  type KeyIds = SenderKey -> nat

  /**
   `pairs`: peers whose offer was verified. `byId`: the keys we can decrypt with, ours included.
   `peerIds` and `holders`: which id belongs to whom, both ways.
  */
  datatype Keys = Keys(room: string, master: MasterKey, own: nat, senderKey: SenderKey,
                       pairs: map<PublicKey, PairKey>, byId: map<nat, SenderKey>,
                       peerIds: map<PublicKey, nat>, holders: map<nat, PublicKey>)
  {
    function Psk(): Psk {
      KeyAgreement.Psk(master, room)
    }

    function PublicKey(): PublicKey {
      Point(own)
    }
  }

  function Open(ids: KeyIds, room: string, master: MasterKey, own: nat, senderKey: SenderKey): Keys {
    Keys(room, master, own, senderKey, map[], map[ids(senderKey) := senderKey], map[],
         map[ids(senderKey) := Point(own)])
  }

  /** Verifies an offer and returns our sender key wrapped for that peer. */
  function AcceptOffer(k: Keys, peer: PublicKey, tag: Tag, nonce: nat): Result<(Keys, Wrapped), Failure> {
    if !VerifiesOffer(peer, tag, k.master, k.room) then Err(OfferError)
    else
      var pair := AgreePairKey(k.own, peer, k.Psk());
      if pair.Err? then Err(OfferError)
      else Ok((k.(pairs := k.pairs[peer := pair.value]), Wrap(pair.value, nonce, k.senderKey)))
  }

  /** A key whose id somebody else holds is refused; a peer's new key replaces that peer's old one. */
  function AcceptSenderKey(ids: KeyIds, k: Keys, peer: PublicKey, wrapped: Wrapped): Result<(Keys, nat), Failure> {
    if peer !in k.pairs then Err(UnknownSenderKey)
    else
      var key := Unwrap(k.pairs[peer], wrapped);
      if key.Err? then Err(SenderKeyError)
      else
        var id := ids(key.value);
        if id in k.holders && k.holders[id] != peer then Err(SenderKeyError)
        else
          var stale := if peer in k.peerIds && k.peerIds[peer] != id then {k.peerIds[peer]} else {};
          Ok((k.(byId := (k.byId - stale)[id := key.value], holders := (k.holders - stale)[id := peer],
              peerIds := k.peerIds[peer := id]), id))
  }

  function ForgetPeer(k: Keys, peer: PublicKey): Keys {
    var gone := if peer in k.peerIds then {k.peerIds[peer]} else {};
    k.(pairs := k.pairs - {peer}, peerIds := k.peerIds - {peer}, byId := k.byId - gone, holders := k.holders - gone)
  }

  /**
   The four maps agree: the same ids on both sides, each under the key it is the id of; ours is always among
   them and is ours alone; every other id belongs to exactly the peer that has it; and every keyed peer
   has a pair key, which is the agreed one.
  */
  ghost predicate Coherent(ids: KeyIds, k: Keys) {
    match k
    case Keys(room, master, own, senderKey, pairs, byId, peerIds, holders) =>
      && byId.Keys == holders.Keys
      && (forall i :: i in byId ==> ids(byId[i]) == i)
      && (ids(senderKey) in byId && byId[ids(senderKey)] == senderKey)
      && (forall i :: i in holders ==> (holders[i] == Point(own) <==> i == ids(senderKey)))
      && (forall i :: i in holders && i != ids(senderKey) ==> holders[i] in peerIds && peerIds[holders[i]] == i)
      && (forall p :: p in peerIds ==> peerIds[p] in holders && holders[peerIds[p]] == p)
      && peerIds.Keys <= pairs.Keys
      && (forall p :: p in pairs ==> AgreePairKey(own, p, k.Psk()) == Ok(pairs[p]))
  }

  lemma OpenIsCoherent(ids: KeyIds, room: string, master: MasterKey, own: nat, senderKey: SenderKey)
    ensures Coherent(ids, Open(ids, room, master, own, senderKey))
  {
  }

  lemma AcceptOfferCoherent(ids: KeyIds, k: Keys, peer: PublicKey, tag: Tag, nonce: nat)
    requires Coherent(ids, k) && AcceptOffer(k, peer, tag, nonce).Ok?
    ensures Coherent(ids, AcceptOffer(k, peer, tag, nonce).value.0)
    ensures peer != Point(k.own)
  {
  }

  lemma AcceptSenderKeyCoherent(ids: KeyIds, k: Keys, peer: PublicKey, wrapped: Wrapped)
    requires Coherent(ids, k) && AcceptSenderKey(ids, k, peer, wrapped).Ok?
    ensures Coherent(ids, AcceptSenderKey(ids, k, peer, wrapped).value.0)
  {
    assert peer != Point(k.own);
  }

  lemma ForgetPeerCoherent(ids: KeyIds, k: Keys, peer: PublicKey)
    requires Coherent(ids, k)
    ensures Coherent(ids, ForgetPeer(k, peer))
  {
  }

  /** What one peer has in the maps: its pair key, its id, and the key under that id. */
  function EntryOf(k: Keys, p: PublicKey): (Option<PairKey>, Option<nat>, Option<SenderKey>) {
    (if p in k.pairs then Some(k.pairs[p]) else None,
     if p in k.peerIds then Some(k.peerIds[p]) else None,
     if p in k.peerIds && k.peerIds[p] in k.byId then Some(k.byId[k.peerIds[p]]) else None)
  }

  /** Keying or re-keying one peer changes nobody else's entries; afterwards the peer has exactly the new key. */
  lemma AcceptSenderKeyTouchesOne(ids: KeyIds, k: Keys, peer: PublicKey, wrapped: Wrapped, other: PublicKey)
    requires Coherent(ids, k) && AcceptSenderKey(ids, k, peer, wrapped).Ok?
    ensures var (after, id) := AcceptSenderKey(ids, k, peer, wrapped).value;
            && (other != peer ==> EntryOf(after, other) == EntryOf(k, other))
            && wrapped.Wrapped? && wrapped.secret.Key?
            && EntryOf(after, peer) == (Some(k.pairs[peer]), Some(ids(wrapped.secret.key)), Some(wrapped.secret.key))
            && after.byId[ids(k.senderKey)] == k.senderKey
  {
  }

  /** Forgetting a peer removes all it had and nothing else. */
  lemma ForgetPeerTouchesOne(ids: KeyIds, k: Keys, peer: PublicKey, other: PublicKey)
    requires Coherent(ids, k)
    ensures var after := ForgetPeer(k, peer);
            && EntryOf(after, other) == (if other == peer then (None, None, None) else EntryOf(k, other))
            && (forall i :: i in after.holders ==> after.holders[i] != peer || peer == Point(k.own))
  {
  }

  /** Our own wrap sent back to us under a peer's name never takes that peer's place: its id is ours already. */
  lemma ReflectedWrapRefused(ids: KeyIds, k: Keys, peer: PublicKey, nonce: nat)
    requires Coherent(ids, k) && peer in k.pairs
    ensures AcceptSenderKey(ids, k, peer, Wrap(k.pairs[peer], nonce, k.senderKey)) == Err(SenderKeyError)
  {
  }

  /**
   Two clients of one room with one password reach each other: each verifies the other's offer, and what the first
   sends back opens for the second, unless somebody else already holds an id that collides with it.
  */
  lemma OffersMeet(ids: KeyIds, a: Keys, b: Keys, nonce: nat, nonce': nat)
    requires Coherent(ids, a) && Coherent(ids, b)
    requires a.own != b.own && a.room == b.room && a.master == b.master
    ensures var atA := AcceptOffer(a, Point(b.own), OfferMac(Point(b.own), b.master, b.room), nonce);
            var atB := AcceptOffer(b, Point(a.own), OfferMac(Point(a.own), a.master, a.room), nonce');
            && atA.Ok? && atB.Ok?
            && var keyed := AcceptSenderKey(ids, atB.value.0, Point(a.own), atA.value.1);
            if ids(a.senderKey) in b.holders && b.holders[ids(a.senderKey)] != Point(a.own)
            then keyed == Err(SenderKeyError)
            else keyed.Ok? && EntryOf(keyed.value.0, Point(a.own)).2 == Some(a.senderKey)
  {
    AcceptOfferCoherent(ids, b, Point(a.own), OfferMac(Point(a.own), a.master, a.room), nonce');
  }
}
