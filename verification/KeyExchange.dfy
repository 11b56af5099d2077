/** The client's half of the key exchange: offers, sender keys, and sender keys that arrive before their offer. */
module KeyExchange {
  import opened Common
  import opened OrderedDict
  import opened KeyAgreement
  import opened SessionKeys

  const MAX_TRACKED_STRANGERS: nat := 256

  /**
   `peerUsers`: the name on each peer's last valid offer. `mismatched`: keys whose offer failed.
   `pending`: wrapped keys waiting for their peer's offer.
  */
  datatype Client = Client(keys: Keys, peerUsers: map<PublicKey, string>, mismatched: set<PublicKey>,
                           pending: Dict<PublicKey, Wrapped>)

  function Start(keys: Keys): Client {
    Client(keys, map[], {}, Empty())
  }

  /** A key that fails to open, or that somebody else holds, changes nothing. */
  function TrySenderKey(ids: KeyIds, k: Keys, peer: PublicKey, wrapped: Wrapped): Keys {
    var r := AcceptSenderKey(ids, k, peer, wrapped);
    if r.Ok? then r.value.0 else k
  }

  /** The offer's effect, and the wrap sent in reply. */
  function HandleOffer(ids: KeyIds, c: Client, peer: PublicKey, tag: Option<Tag>, user: string, nonce: nat)
    : (Client, Option<Wrapped>)
  {
    if tag.None? then (c, None)
    else
      var r := AcceptOffer(c.keys, peer, tag.value, nonce);
      if r.Err? then
        (if |c.mismatched| < MAX_TRACKED_STRANGERS then c.(mismatched := c.mismatched + {peer}) else c, None)
      else
        var (keys, reply) := r.value;
        var named := c.(keys := keys, peerUsers := c.peerUsers[peer := user]);
        if peer in c.pending.items then
          (named.(keys := TrySenderKey(ids, keys, peer, c.pending.items[peer]), pending := Remove(c.pending, peer)),
           Some(reply))
        else (named, Some(reply))
  }

  /** At the limit the oldest waiting key makes room, unless this peer already has a place. */
  function Wait(pending: Dict<PublicKey, Wrapped>, peer: PublicKey, wrapped: Wrapped): Dict<PublicKey, Wrapped> {
    if peer !in pending.items && |pending.order| >= MAX_TRACKED_STRANGERS
    then Put(Remove(pending, pending.order[0]), peer, wrapped)
    else Put(pending, peer, wrapped)
  }

  function HandleSenderKey(ids: KeyIds, c: Client, peer: PublicKey, wrapped: Option<Wrapped>,
                           to: Option<PublicKey>): Client {
    if to != Some(c.keys.PublicKey()) || wrapped.None? then c
    else if peer !in c.keys.pairs then c.(pending := Wait(c.pending, peer, wrapped.value))
    else c.(keys := TrySenderKey(ids, c.keys, peer, wrapped.value))
  }

  /** A key packet from the network, fields that do not decode being absent. */
  datatype KeyPacket =
    | KeyOffer(pub: Option<PublicKey>, mac: Option<Tag>, user: string)
    | SenderKeyFor(pub: Option<PublicKey>, key: Option<Wrapped>, to: Option<PublicKey>)

  /** Packets without a key, and our own coming back, are ignored. */
  function Handle(ids: KeyIds, c: Client, p: KeyPacket, nonce: nat): (Client, Option<Wrapped>) {
    if p.pub.None? || p.pub == Some(c.keys.PublicKey()) then (c, None)
    else match p
         case KeyOffer(pub, mac, user) => HandleOffer(ids, c, pub.value, mac, user, nonce)
         case SenderKeyFor(pub, key, to) => (HandleSenderKey(ids, c, pub.value, key, to), None)
  }

  /** The peers whose recorded name is not on the member list. */
  function Absent(c: Client, users: set<string>): set<PublicKey> {
    set p | p in c.peerUsers && c.peerUsers[p] != "" && c.peerUsers[p] !in users
  }

  function ForgetAll(k: Keys, gone: set<PublicKey>): Keys {
    var stale := set p | p in k.peerIds && p in gone :: k.peerIds[p];
    k.(pairs := k.pairs - gone, peerIds := k.peerIds - gone, byId := k.byId - stale, holders := k.holders - stale)
  }

  function Kept(s: seq<PublicKey>, gone: set<PublicKey>): seq<PublicKey> {
    if s == [] then [] else (if s[0] in gone then [] else [s[0]]) + Kept(s[1..], gone)
  }

  function RemoveAll(d: Dict<PublicKey, Wrapped>, gone: set<PublicKey>): Dict<PublicKey, Wrapped> {
    Dict(Kept(d.order, gone), d.items - gone)
  }

  /** All of them are forgotten: their keys, their names, and what was waiting for their offers. */
  function ForgetAbsent(c: Client, users: set<string>): Client {
    var gone := Absent(c, users);
    Client(ForgetAll(c.keys, gone), c.peerUsers - gone, c.mismatched, RemoveAll(c.pending, gone))
  }

  /**
   The maps agree, every peer with a pair key has a recorded name, nobody both waits and has a pair key,
   and neither table of strangers outgrows its limit.
  */
  ghost predicate Tidy(ids: KeyIds, c: Client) {
    match c
    case Client(keys, peerUsers, mismatched, pending) =>
      && Coherent(ids, keys)
      && peerUsers.Keys == keys.pairs.Keys
      && pending.Valid()
      && pending.items.Keys !! keys.pairs.Keys
      && |mismatched| <= MAX_TRACKED_STRANGERS
      && |pending.order| <= MAX_TRACKED_STRANGERS
  }

  /** The names that have proved the password: whose sender key opened with the agreed pair key. */
  function VerifiedUsers(c: Client): set<string> {
    set p | p in c.peerUsers && c.peerUsers[p] != "" && p in c.keys.peerIds :: c.peerUsers[p]
  }

  lemma TrySenderKeyCoherent(ids: KeyIds, k: Keys, peer: PublicKey, wrapped: Wrapped)
    requires Coherent(ids, k)
    ensures Coherent(ids, TrySenderKey(ids, k, peer, wrapped))
    ensures TrySenderKey(ids, k, peer, wrapped).pairs == k.pairs
    ensures TrySenderKey(ids, k, peer, wrapped) == k.(byId := TrySenderKey(ids, k, peer, wrapped).byId,
                                                   holders := TrySenderKey(ids, k, peer, wrapped).holders,
                                                   peerIds := TrySenderKey(ids, k, peer, wrapped).peerIds)
  {
    if AcceptSenderKey(ids, k, peer, wrapped).Ok? {
      AcceptSenderKeyCoherent(ids, k, peer, wrapped);
    }
  }

  lemma HandleOfferTidy(ids: KeyIds, c: Client, peer: PublicKey, tag: Option<Tag>, user: string, nonce: nat)
    requires Tidy(ids, c)
    ensures Tidy(ids, HandleOffer(ids, c, peer, tag, user, nonce).0)
  {
    if tag.Some? && AcceptOffer(c.keys, peer, tag.value, nonce).Ok? {
      AcceptOfferCoherent(ids, c.keys, peer, tag.value, nonce);
      RemoveValid(c.pending, peer);
      if peer in c.pending.items {
        TrySenderKeyCoherent(ids, AcceptOffer(c.keys, peer, tag.value, nonce).value.0, peer, c.pending.items[peer]);
      }
    }
  }

  lemma WaitValid(pending: Dict<PublicKey, Wrapped>, peer: PublicKey, wrapped: Wrapped)
    requires pending.Valid() && |pending.order| <= MAX_TRACKED_STRANGERS
    ensures Wait(pending, peer, wrapped).Valid() && |Wait(pending, peer, wrapped).order| <= MAX_TRACKED_STRANGERS
    ensures peer in Wait(pending, peer, wrapped).items && Wait(pending, peer, wrapped).items[peer] == wrapped
    ensures Wait(pending, peer, wrapped).items.Keys <= pending.items.Keys + {peer}
    ensures forall p :: p in Wait(pending, peer, wrapped).items && p != peer
                        ==> Wait(pending, peer, wrapped).items[p] == pending.items[p]
  {
    if peer !in pending.items && |pending.order| >= MAX_TRACKED_STRANGERS {
      assert pending.order[0] in pending.items;
      RemoveValid(pending, pending.order[0]);
      PutValid(Remove(pending, pending.order[0]), peer, wrapped);
    } else {
      PutValid(pending, peer, wrapped);
    }
  }

  lemma HandleSenderKeyTidy(ids: KeyIds, c: Client, peer: PublicKey, wrapped: Option<Wrapped>, to: Option<PublicKey>)
    requires Tidy(ids, c)
    ensures Tidy(ids, HandleSenderKey(ids, c, peer, wrapped, to))
  {
    if wrapped.Some? {
      TrySenderKeyCoherent(ids, c.keys, peer, wrapped.value);
      WaitValid(c.pending, peer, wrapped.value);
    }
  }

  /** Forgetting several peers at once is forgetting them one by one. */
  lemma ForgetOneMore(k: Keys, gone: set<PublicKey>, p: PublicKey)
    ensures ForgetPeer(ForgetAll(k, gone), p).pairs == ForgetAll(k, gone + {p}).pairs
    ensures ForgetPeer(ForgetAll(k, gone), p).peerIds == ForgetAll(k, gone + {p}).peerIds
    ensures ForgetPeer(ForgetAll(k, gone), p) == ForgetAll(k, gone + {p})
  {
    var stale := set q | q in k.peerIds && q in gone :: k.peerIds[q];
    var more := set q | q in k.peerIds && q in gone + {p} :: k.peerIds[q];
    assert k.peerIds - gone - {p} == k.peerIds - (gone + {p});
    assert k.pairs - gone - {p} == k.pairs - (gone + {p});
    if p in k.peerIds && p !in gone {
      assert more == stale + {k.peerIds[p]};
      assert k.byId - stale - {k.peerIds[p]} == k.byId - more;
      assert k.holders - stale - {k.peerIds[p]} == k.holders - more;
    } else {
      assert more == stale;
      assert k.byId - stale - {} == k.byId - more;
      assert k.holders - stale - {} == k.holders - more;
    }
  }

  lemma {:induction false} KeptOneMore(s: seq<PublicKey>, gone: set<PublicKey>, p: PublicKey)
    ensures Without(Kept(s, gone), p) == Kept(s, gone + {p})
  {
    if s == [] {
    } else {
      KeptOneMore(s[1..], gone, p);
      assert [] + Kept(s[1..], gone) == Kept(s[1..], gone);
      assert ([s[0]] + Kept(s[1..], gone))[1..] == Kept(s[1..], gone);
      assert [] + Kept(s[1..], gone + {p}) == Kept(s[1..], gone + {p});
    }
  }

  lemma ForgetAllCoherent(ids: KeyIds, k: Keys, gone: set<PublicKey>)
    requires Coherent(ids, k)
    ensures Coherent(ids, ForgetAll(k, gone))
  {
  }

  lemma {:induction false} KeptOnly(s: seq<PublicKey>, gone: set<PublicKey>)
    requires Distinct(s)
    ensures forall p :: p in Kept(s, gone) <==> p in s && p !in gone
    ensures Distinct(Kept(s, gone)) && |Kept(s, gone)| <= |s|
  {
    if s == [] {
    } else {
      KeptOnly(s[1..], gone);
      assert forall p :: p in s <==> p == s[0] || p in s[1..];
    }
  }

  lemma ForgetAbsentTidy(ids: KeyIds, c: Client, users: set<string>)
    requires Tidy(ids, c)
    ensures Tidy(ids, ForgetAbsent(c, users))
  {
    ForgetAllCoherent(ids, c.keys, Absent(c, users));
    KeptOnly(c.pending.order, Absent(c, users));
  }

  lemma HandleTidy(ids: KeyIds, c: Client, p: KeyPacket, nonce: nat)
    requires Tidy(ids, c)
    ensures Tidy(ids, Handle(ids, c, p, nonce).0)
  {
    if p.pub.Some? {
      match p
      case KeyOffer(pub, mac, user) => HandleOfferTidy(ids, c, pub.value, mac, user, nonce);
      case SenderKeyFor(pub, key, to) => HandleSenderKeyTidy(ids, c, pub.value, key, to);
    }
  }

  /**
   Exactly the peers whose recorded name is missing from the list are forgotten, with all they had; the others keep
   everything.
  */
  lemma ForgottenExactly(ids: KeyIds, c: Client, users: set<string>, p: PublicKey)
    requires Tidy(ids, c)
    ensures var after := ForgetAbsent(c, users);
            if p in c.peerUsers && c.peerUsers[p] != "" && c.peerUsers[p] !in users
            then EntryOf(after.keys, p) == (None, None, None) && p !in after.peerUsers && p !in after.pending.items
            else
              && EntryOf(after.keys, p) == EntryOf(c.keys, p)
              && (p in after.peerUsers <==> p in c.peerUsers)
              && (p in c.peerUsers ==> after.peerUsers[p] == c.peerUsers[p])
              && (p in after.pending.items <==> p in c.pending.items)
              && (p in c.pending.items ==> after.pending.items[p] == c.pending.items[p])
    ensures ForgetAbsent(c, users).keys.byId[ids(c.keys.senderKey)] == c.keys.senderKey
  {
    ForgetAllCoherent(ids, c.keys, Absent(c, users));
  }

  // What a packet achieves.

  /** An offer from somebody else, with the tag that only the room's password gives for that key. */
  predicate ValidOffer(k: Keys, p: KeyPacket) {
    && p.KeyOffer? && p.pub.Some? && p.pub.value.Point? && p.pub.value.scalar != k.own
    && p.mac == Some(OfferTag(k.master, k.room, p.pub.value))
  }

  /**
   Exactly the valid offers are answered, and the answer opens to our sender key under the pair key of the other side.
  */
  lemma ValidOffersAreAnswered(ids: KeyIds, c: Client, p: KeyPacket, nonce: nat)
    ensures Handle(ids, c, p, nonce).1.Some? <==> ValidOffer(c.keys, p)
    ensures Handle(ids, c, p, nonce).1.Some? ==>
              Unwrap(AgreePairKey(p.pub.value.scalar, Point(c.keys.own), c.keys.Psk()).value,
                     Handle(ids, c, p, nonce).1.value)
              == Ok(c.keys.senderKey)
  {
    if ValidOffer(c.keys, p) {
      PairKeysAgree(c.keys.own, p.pub.value.scalar, c.keys.Psk(), p.pub.value.scalar, c.keys.own, c.keys.Psk());
    }
  }

  /** A valid offer pairs its peer, under the name it came with, and takes the peer off the waiting list. */
  lemma ValidOfferPairs(ids: KeyIds, c: Client, p: KeyPacket, nonce: nat)
    requires c.pending.Valid() && ValidOffer(c.keys, p)
    ensures var after, peer := Handle(ids, c, p, nonce).0, p.pub.value;
            && peer in after.keys.pairs && after.peerUsers == c.peerUsers[peer := p.user]
            && after.pending == Remove(c.pending, peer) && peer !in after.pending.items
            && after.mismatched == c.mismatched
  {
    RemoveValid(c.pending, p.pub.value);
  }

  /** A tagged offer that is not valid is noted as a mismatch, while there is room; nothing else changes. */
  lemma InvalidOfferIsNoted(ids: KeyIds, c: Client, p: KeyPacket, nonce: nat)
    requires p.KeyOffer? && p.pub.Some? && p.pub.value != c.keys.PublicKey() && p.mac.Some? && !ValidOffer(c.keys, p)
    ensures var after := Handle(ids, c, p, nonce).0;
            && after.mismatched == (if |c.mismatched| < MAX_TRACKED_STRANGERS then c.mismatched + {p.pub.value}
                                    else c.mismatched)
            && after.keys == c.keys && after.peerUsers == c.peerUsers && after.pending == c.pending
  {
  }

  /** Our own packets coming back, packets without a key, and sender keys meant for somebody else change nothing. */
  lemma NotOursIsIgnored(ids: KeyIds, c: Client, p: KeyPacket, nonce: nat)
    requires p.pub.None? || p.pub.value == Point(c.keys.own) || (p.SenderKeyFor? && p.to != Some(Point(c.keys.own)))
    ensures Handle(ids, c, p, nonce) == (c, None)
  {
  }

  /** A sender key that comes before its offer waits; in a full table the one that has waited longest makes room. */
  lemma EarlyKeyWaits(ids: KeyIds, c: Client, p: KeyPacket, nonce: nat)
    requires c.pending.Valid() && |c.pending.order| <= MAX_TRACKED_STRANGERS
    requires p.SenderKeyFor? && p.pub.Some? && p.pub.value != c.keys.PublicKey() && p.pub.value !in c.keys.pairs
    requires p.key.Some? && p.to == Some(c.keys.PublicKey())
    ensures var after, peer := Handle(ids, c, p, nonce).0, p.pub.value;
            && after.keys == c.keys && peer in after.pending.items && after.pending.items[peer] == p.key.value
            && forall q :: q in c.pending.items && q != peer ==>
                             (q in after.pending.items
                              <==> !(peer !in c.pending.items && |c.pending.order| == MAX_TRACKED_STRANGERS
                                     && q == c.pending.order[0]))
  {
    WaitValid(c.pending, p.pub.value, p.key.value);
  }

  /** Dropping every peer leaves the session as it was when it was opened: our own key and nothing else. */
  lemma DroppingAllIsFresh(ids: KeyIds, k: Keys)
    requires Coherent(ids, k)
    ensures ForgetAll(k, k.pairs.Keys) == Open(ids, k.room, k.master, k.own, k.senderKey)
  {
    var own := ids(k.senderKey);
    var stale := set p | p in k.peerIds && p in k.pairs.Keys :: k.peerIds[p];
    assert stale == k.byId.Keys - {own} by {
      assert forall p | p in k.peerIds :: k.peerIds[p] in k.byId && k.peerIds[p] != own;
      forall i | i in k.byId.Keys - {own} ensures i in stale {
        assert k.holders[i] in k.peerIds && k.peerIds[k.holders[i]] == i;
      }
    }
    assert k.byId - stale == map[own := k.senderKey];
    assert k.holders - stale == map[own := Point(k.own)];
    assert k.pairs - k.pairs.Keys == map[] && k.peerIds - k.pairs.Keys == map[];
  }

  /** Whether a wrapped key would be accepted from a peer once its offer has been. */
  predicate Opens(ids: KeyIds, c: Client, peer: PublicKey, tag: Tag, nonce: nat, wrapped: Wrapped)
    requires AcceptOffer(c.keys, peer, tag, nonce).Ok?
  {
    AcceptSenderKey(ids, AcceptOffer(c.keys, peer, tag, nonce).value.0, peer, wrapped).Ok?
  }

  /**
   When the order of a peer's offer and sender key matters: a first valid offer together with a key for us, and
   either an older key that would open is waiting while the new one would not open, or nothing of this
   peer is waiting and the table is full, so that waiting pushes somebody else out.
  */
  predicate OrderMatters(ids: KeyIds, c: Client, peer: PublicKey, tag: Option<Tag>, nonce: nat,
                         wrapped: Option<Wrapped>, to: Option<PublicKey>)
  {
    && tag.Some? && AcceptOffer(c.keys, peer, tag.value, nonce).Ok? && peer !in c.keys.pairs
    && wrapped.Some? && to == Some(c.keys.PublicKey())
    && if peer in c.pending.items
       then Opens(ids, c, peer, tag.value, nonce, c.pending.items[peer])
            && !Opens(ids, c, peer, tag.value, nonce, wrapped.value)
       else |c.pending.order| >= MAX_TRACKED_STRANGERS
  }

  /** Without this peer's key. */
  ghost function Bared(k: Keys, peer: PublicKey): Keys {
    var gone := if peer in k.peerIds then {k.peerIds[peer]} else {};
    k.(byId := k.byId - gone, holders := k.holders - gone)
  }

  /** An accepted key replaces whatever this peer had. */
  lemma KeyReplaces(ids: KeyIds, k: Keys, peer: PublicKey, wrapped: Wrapped)
    requires AcceptSenderKey(ids, k, peer, wrapped).Ok?
    ensures var (after, id) := AcceptSenderKey(ids, k, peer, wrapped).value;
            var bare := Bared(k, peer);
            && wrapped.Wrapped? && wrapped.secret.Key? && id == ids(wrapped.secret.key)
            && after == k.(byId := bare.byId[id := wrapped.secret.key], holders := bare.holders[id := peer],
                        peerIds := k.peerIds[peer := id])
  {
    var key := wrapped.secret.key;
    var id := ids(key);
    if peer !in k.peerIds || k.peerIds[peer] == id {
      assert (k.byId - {})[id := key] == (k.byId - {id})[id := key];
      assert (k.holders - {})[id := peer] == (k.holders - {id})[id := peer];
      assert k.byId - {} == k.byId && k.holders - {} == k.holders;
    }
  }

  /**
   Once keyed, a peer's old key has left no trace: taking the new one out leaves what taking the old one out would.
  */
  lemma BaredAgain(ids: KeyIds, k: Keys, peer: PublicKey, wrapped: Wrapped)
    requires Coherent(ids, k) && AcceptSenderKey(ids, k, peer, wrapped).Ok?
    ensures var after := AcceptSenderKey(ids, k, peer, wrapped).value.0;
            Bared(after, peer).byId == Bared(k, peer).byId && Bared(after, peer).holders == Bared(k, peer).holders
  {
    KeyReplaces(ids, k, peer, wrapped);
  }

  /** Whether a second key opens does not depend on the first. */
  lemma FirstDoesNotDecide(ids: KeyIds, k: Keys, peer: PublicKey, first: Wrapped, second: Wrapped)
    requires Coherent(ids, k) && AcceptSenderKey(ids, k, peer, first).Ok?
    ensures AcceptSenderKey(ids, AcceptSenderKey(ids, k, peer, first).value.0, peer, second).Ok?
       <==> AcceptSenderKey(ids, k, peer, second).Ok?
  {
    KeyReplaces(ids, k, peer, first);
  }

  /** Whatever the peer had before, a second key that opens overrides a first one completely. */
  lemma LaterKeyWins(ids: KeyIds, k: Keys, peer: PublicKey, first: Wrapped, second: Wrapped)
    requires Coherent(ids, k)
    ensures TrySenderKey(ids, TrySenderKey(ids, k, peer, first), peer, second)
         == (if AcceptSenderKey(ids, k, peer, second).Ok? then TrySenderKey(ids, k, peer, second)
             else TrySenderKey(ids, k, peer, first))
  {
    if AcceptSenderKey(ids, k, peer, first).Ok? {
      FirstDoesNotDecide(ids, k, peer, first, second);
      if AcceptSenderKey(ids, k, peer, second).Ok? {
        var keyed := AcceptSenderKey(ids, k, peer, first).value.0;
        BaredAgain(ids, k, peer, first);
        KeyReplaces(ids, k, peer, first);
        KeyReplaces(ids, k, peer, second);
        KeyReplaces(ids, keyed, peer, second);
        assert keyed.peerIds[peer := ids(second.secret.key)] == k.peerIds[peer := ids(second.secret.key)];
      }
    }
  }

  /** An accepted first key is visible: the peer was not keyed before and is now. */
  lemma FirstKeyShows(ids: KeyIds, k: Keys, peer: PublicKey, wrapped: Wrapped)
    requires peer !in k.peerIds
    ensures TrySenderKey(ids, k, peer, wrapped) != k <==> AcceptSenderKey(ids, k, peer, wrapped).Ok?
  {
    if AcceptSenderKey(ids, k, peer, wrapped).Ok? {
      assert peer in TrySenderKey(ids, k, peer, wrapped).peerIds;
    }
  }

  /** A peer that has a pair key gets the same one again. */
  lemma AgreedAgain(ids: KeyIds, c: Client, peer: PublicKey, tag: Tag, nonce: nat)
    requires Tidy(ids, c) && peer in c.keys.pairs && AcceptOffer(c.keys, peer, tag, nonce).Ok?
    ensures AcceptOffer(c.keys, peer, tag, nonce).value.0 == c.keys
  {
    assert c.keys.pairs[peer := c.keys.pairs[peer]] == c.keys.pairs;
  }

  lemma FirstOffer(ids: KeyIds, c: Client, peer: PublicKey, tag: Tag, user: string, nonce: nat, wrapped: Wrapped)
    requires Tidy(ids, c) && peer !in c.keys.pairs && AcceptOffer(c.keys, peer, tag, nonce).Ok?
    ensures var to := Some(c.keys.PublicKey());
            HandleSenderKey(ids, HandleOffer(ids, c, peer, Some(tag), user, nonce).0, peer, Some(wrapped), to)
            == HandleOffer(ids, HandleSenderKey(ids, c, peer, Some(wrapped), to), peer, Some(tag), user, nonce).0
            <==> !OrderMatters(ids, c, peer, Some(tag), nonce, Some(wrapped), to)
  {
    var to := Some(c.keys.PublicKey());
    var keys := AcceptOffer(c.keys, peer, tag, nonce).value.0;
    AcceptOfferCoherent(ids, c.keys, peer, tag, nonce);
    var offerFirst := HandleSenderKey(ids, HandleOffer(ids, c, peer, Some(tag), user, nonce).0, peer, Some(wrapped),
                                      to);
    var keyFirst := HandleOffer(ids, HandleSenderKey(ids, c, peer, Some(wrapped), to), peer, Some(tag), user, nonce).0;
    WaitValid(c.pending, peer, wrapped);
    assert keyFirst.keys == TrySenderKey(ids, keys, peer, wrapped);
    if peer in c.pending.items {
      RemovePut(c.pending, peer, wrapped);
      LaterKeyWins(ids, keys, peer, c.pending.items[peer], wrapped);
      FirstKeyShows(ids, keys, peer, c.pending.items[peer]);
    } else if |c.pending.order| >= MAX_TRACKED_STRANGERS {
      var oldest := c.pending.order[0];
      assert oldest in c.pending.items;
      RemoveValid(c.pending, oldest);
      RemovePut(Remove(c.pending, oldest), peer, wrapped);
    } else {
      RemovePut(c.pending, peer, wrapped);
    }
  }

  /**
   Handling a peer's offer and sender key in either order ends in the same state, except exactly when OrderMatters.
  */
  lemma OrderIndependent(ids: KeyIds, c: Client, peer: PublicKey, tag: Option<Tag>, user: string, nonce: nat,
                         wrapped: Option<Wrapped>, to: Option<PublicKey>)
    requires Tidy(ids, c)
    ensures HandleSenderKey(ids, HandleOffer(ids, c, peer, tag, user, nonce).0, peer, wrapped, to)
         == HandleOffer(ids, HandleSenderKey(ids, c, peer, wrapped, to), peer, tag, user, nonce).0
       <==> !OrderMatters(ids, c, peer, tag, nonce, wrapped, to)
  {
    if tag.Some? && wrapped.Some? && to == Some(c.keys.PublicKey()) && AcceptOffer(c.keys, peer, tag.value, nonce).Ok? {
      if peer in c.keys.pairs {
        AgreedAgain(ids, c, peer, tag.value, nonce);
      } else {
        FirstOffer(ids, c, peer, tag.value, user, nonce, wrapped.value);
      }
    }
  }

  // The order does matter: two states that packets lead to.

  function HandleAll(ids: KeyIds, c: Client, packets: seq<KeyPacket>): Client {
    if packets == [] then c
    else Handle(ids, HandleAll(ids, c, packets[..|packets| - 1]), packets[|packets| - 1], 0).0
  }

  /** What is the same whichever of the two arrives first, and the two outcomes. */
  ghost predicate OrdersDiffer(ids: KeyIds, c: Client, peer: PublicKey, tag: Tag, wrapped: Wrapped) {
    var to := Some(c.keys.PublicKey());
    HandleSenderKey(ids, HandleOffer(ids, c, peer, Some(tag), "", 0).0, peer, Some(wrapped), to)
    != HandleOffer(ids, HandleSenderKey(ids, c, peer, Some(wrapped), to), peer, Some(tag), "", 0).0
  }

  /** A peer whose key came early and opens: a worthless key then decides whether it is used at all. */
  lemma OlderKeyIsLost(ids: KeyIds, k: Keys, p: nat, theirs: SenderKey)
    requires k == Open(ids, k.room, k.master, k.own, k.senderKey)
    requires p != k.own && ids(theirs) != ids(k.senderKey)
    ensures var peer := Point(p);
            var early := SenderKeyFor(Some(peer), Some(Wrap(AgreePairKey(p, Point(k.own), k.Psk()).value, 0, theirs)),
                                      Some(k.PublicKey()));
            var c := Handle(ids, Start(k), early, 0).0;
            && Tidy(ids, c) && OrdersDiffer(ids, c, peer, OfferMac(peer, k.master, k.room), Scrap(0))
  {
    var peer, tag := Point(p), OfferMac(Point(p), k.master, k.room);
    var wrap := Wrap(AgreePairKey(p, Point(k.own), k.Psk()).value, 0, theirs);
    OpenIsCoherent(ids, k.room, k.master, k.own, k.senderKey);
    PairKeysAgree(p, k.own, k.Psk(), k.own, p, k.Psk());
    var c := HandleSenderKey(ids, Start(k), peer, Some(wrap), Some(k.PublicKey()));
    HandleSenderKeyTidy(ids, Start(k), peer, Some(wrap), Some(k.PublicKey()));
    assert c.keys == k && c.pending.items == map[peer := wrap];
    assert Opens(ids, c, peer, tag, 0, wrap) && !Opens(ids, c, peer, tag, 0, Scrap(0));
    OrderIndependent(ids, c, peer, Some(tag), "", 0, Some(Scrap(0)), Some(k.PublicKey()));
  }

  function Stranger(own: PublicKey, n: nat): KeyPacket {
    SenderKeyFor(Some(WrongLength(n)), Some(Scrap(n)), Some(own))
  }

  /** Worthless keys from `n` strangers whose offers never come. */
  function Crowd(own: PublicKey, n: nat): seq<KeyPacket> {
    if n == 0 then [] else Crowd(own, n - 1) + [Stranger(own, n - 1)]
  }

  /** The first `n` strangers wait, and nobody else. */
  ghost predicate Crowded(c: Client, k: Keys, n: nat) {
    c.keys == k && |c.pending.order| == n && forall q :: q in c.pending.items ==> q.WrongLength? && q.serial < n
  }

  lemma OneMoreWaits(ids: KeyIds, c: Client, k: Keys, n: nat)
    requires c.pending.Valid() && Crowded(c, k, n) && k.pairs == map[] && n < MAX_TRACKED_STRANGERS
    ensures Crowded(Handle(ids, c, Stranger(k.PublicKey(), n), 0).0, k, n + 1)
  {
    assert WrongLength(n) !in c.pending.items;
    PutValid(c.pending, WrongLength(n), Scrap(n));
    assert Handle(ids, c, Stranger(k.PublicKey(), n), 0).0 == c.(pending := Put(c.pending, WrongLength(n), Scrap(n)));
  }

  lemma {:induction false} CrowdWaits(ids: KeyIds, k: Keys, n: nat)
    requires k == Open(ids, k.room, k.master, k.own, k.senderKey) && n <= MAX_TRACKED_STRANGERS
    ensures Tidy(ids, HandleAll(ids, Start(k), Crowd(k.PublicKey(), n)))
    ensures Crowded(HandleAll(ids, Start(k), Crowd(k.PublicKey(), n)), k, n)
  {
    if n == 0 {
      OpenIsCoherent(ids, k.room, k.master, k.own, k.senderKey);
    } else {
      CrowdWaits(ids, k, n - 1);
      var before := Crowd(k.PublicKey(), n - 1);
      var c := HandleAll(ids, Start(k), before);
      assert Crowd(k.PublicKey(), n)[..|before|] == before;
      HandleTidy(ids, c, Stranger(k.PublicKey(), n - 1), 0);
      OneMoreWaits(ids, c, k, n - 1);
    }
  }

  /** A full table: the peer's key pushes a stranger's out when it comes first, and nobody's when the offer does. */
  lemma StrangerIsPushedOut(ids: KeyIds, k: Keys, p: nat, wrapped: Wrapped)
    requires k == Open(ids, k.room, k.master, k.own, k.senderKey) && p != k.own
    ensures var c := HandleAll(ids, Start(k), Crowd(k.PublicKey(), MAX_TRACKED_STRANGERS));
            Tidy(ids, c) && OrdersDiffer(ids, c, Point(p), OfferMac(Point(p), k.master, k.room), wrapped)
  {
    CrowdWaits(ids, k, MAX_TRACKED_STRANGERS);
    var c := HandleAll(ids, Start(k), Crowd(k.PublicKey(), MAX_TRACKED_STRANGERS));
    OrderIndependent(ids, c, Point(p), Some(OfferMac(Point(p), k.master, k.room)), "", 0, Some(wrapped),
                     Some(k.PublicKey()));
  }
}
