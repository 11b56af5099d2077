/** The session of one room: its key maps and its memory of messages shown, changed in place. */
module RoomSessions {
  import opened Common
  import opened KeyAgreement
  import K = SessionKeys
  import opened SessionKeys
  import opened Messages
  import opened SeenMemory

  class RoomSession {
    const ids: KeyIds
    const room: string
    /** The normalised room name, bound into every message. */
    const boundRoom: string
    const master: MasterKey
    const own: nat
    const senderKey: SenderKey
    var pairs: map<PublicKey, PairKey>
    var byId: map<nat, SenderKey>
    var peerIds: map<PublicKey, nat>
    var holders: map<nat, PublicKey>
    var seen: seq<Head>
    /** Every message shown so far, oldest first. */
    ghost var shown: seq<Head>

    ghost function State(): Keys
      reads this`pairs, this`byId, this`peerIds, this`holders
    {
      Keys(room, master, own, senderKey, pairs, byId, peerIds, holders)
    }

    /** The memory is the newest part of what was shown, and nothing was shown twice within its reach. */
    ghost predicate Remembers()
      reads this`seen, this`shown
    {
      seen == Suffix(shown, SEEN_MESSAGES_LIMIT) && Spaced(shown, SEEN_MESSAGES_LIMIT)
    }

    ghost predicate Valid()
      reads this
    {
      Coherent(ids, State()) && Remembers()
    }

    constructor (ids: KeyIds, room: string, boundRoom: string, password: string, own: nat, senderKey: SenderKey)
      ensures Valid() && State() == Open(ids, room, Master(boundRoom, password), own, senderKey)
      ensures this.ids == ids && this.boundRoom == boundRoom && shown == []
    {
      this.ids, this.room, this.boundRoom, this.own, this.senderKey := ids, room, boundRoom, own, senderKey;
      master := Master(boundRoom, password);
      pairs, byId, peerIds := map[], map[ids(senderKey) := senderKey], map[];
      holders := map[ids(senderKey) := Point(own)];
      seen, shown := [], [];
      new;
      OpenIsCoherent(ids, room, Master(boundRoom, password), own, senderKey);
    }

    method AcceptOffer(peer: PublicKey, tag: Tag, nonce: nat) returns (r: Result<Wrapped, Failure>)
      requires Valid()
      modifies this`pairs
      ensures Valid()
      ensures var spec := K.AcceptOffer(old(State()), peer, tag, nonce);
              if spec.Ok? then (State(), r) == (spec.value.0, Ok(spec.value.1))
              else r == Err(spec.error) && State() == old(State())
    {
      if !VerifiesOffer(peer, tag, master, room) {
        return Err(OfferError);
      }
      var pair := AgreePairKey(own, peer, Psk(master, room));
      if pair.Err? {
        return Err(OfferError);
      }
      AcceptOfferCoherent(ids, State(), peer, tag, nonce);
      pairs := pairs[peer := pair.value];
      return Ok(Wrap(pair.value, nonce, senderKey));
    }

    method AcceptSenderKey(peer: PublicKey, wrapped: Wrapped) returns (r: Result<nat, Failure>)
      requires Valid()
      modifies this`byId, this`holders, this`peerIds
      ensures Valid()
      ensures var spec := K.AcceptSenderKey(ids, old(State()), peer, wrapped);
              if spec.Ok? then (State(), r) == (spec.value.0, Ok(spec.value.1))
              else r == Err(spec.error) && State() == old(State())
    {
      if peer !in pairs {
        return Err(UnknownSenderKey);
      }
      var key := Unwrap(pairs[peer], wrapped);
      if key.Err? {
        return Err(key.error);
      }
      var id := ids(key.value);
      if id in holders && holders[id] != peer {
        return Err(SenderKeyError);
      }
      AcceptSenderKeyCoherent(ids, State(), peer, wrapped);
      if peer in peerIds && peerIds[peer] != id {
        byId := byId - {peerIds[peer]};
        holders := holders - {peerIds[peer]};
      } else {
        assert byId == byId - {} && holders == holders - {};
      }
      byId := byId[id := key.value];
      holders := holders[id := peer];
      peerIds := peerIds[peer := id];
      return Ok(id);
    }

    method ForgetPeer(peer: PublicKey)
      modifies this`pairs, this`byId, this`holders, this`peerIds
      ensures State() == K.ForgetPeer(old(State()), peer)
    {
      pairs := pairs - {peer};
      if peer in peerIds {
        byId := byId - {peerIds[peer]};
        holders := holders - {peerIds[peer]};
      } else {
        assert byId == byId - {} && holders == holders - {};
      }
      peerIds := peerIds - {peer};
    }

    /** Only the id is looked at; nothing is decrypted. */
    method CanRead(t: Token) returns (yes: bool)
      ensures yes <==> HeadOf(t).Some? && HeadOf(t).value.id in byId
    {
      var head := HeadOf(t);
      return head.Some? && head.value.id in byId;
    }

    /** True exactly when the message is not among the last ones shown; then it is shown now. */
    method FirstSight(t: Token) returns (first: bool)
      requires Valid()
      modifies this`seen, this`shown
      ensures Valid()
      ensures first <==> HeadOf(t).Some? && HeadOf(t).value !in Suffix(old(shown), SEEN_MESSAGES_LIMIT)
      ensures first ==> shown == old(shown) + [HeadOf(t).value] && seen == Remember(old(seen), HeadOf(t).value)
      ensures !first ==> shown == old(shown) && seen == old(seen)
    {
      var head := HeadOf(t);
      if head.None? || head.value in seen {
        return false;
      }
      RememberIsSuffix(shown, head.value);
      seen := seen + [head.value];
      if |seen| > SEEN_MESSAGES_LIMIT {
        seen := seen[1..];
      }
      shown := shown + [head.value];
      return true;
    }
  }
}
