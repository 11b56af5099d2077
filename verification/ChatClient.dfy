/** The client's state in one room: the key exchange, the origin check and the holding queue, changed in place. */
module ChatClients {
  import opened Common
  import opened OrderedDict
  import opened KeyAgreement
  import opened SessionKeys
  import opened Messages
  import opened Envelope
  import X = KeyExchange
  import opened KeyExchange
  import opened RoomSessions
  import Queue = DeferredQueue
  import opened DeferredQueue
  import opened Readers
  import Spec = Inboxes
  import opened Inboxes

  /** What the interface was handed: the messages as shown. */
  function Shown(log: seq<Entry>): seq<Message> {
    if log == [] then [] else Shown(log[..|log| - 1]) + [log[|log| - 1].shown]
  }

  lemma {:induction false} KeptNone(s: seq<PublicKey>)
    ensures Kept(s, {}) == s
  {
    if s == [] {
    } else {
      KeptNone(s[1..]);
    }
  }

  lemma ForgetNone(k: Keys, pending: Dict<PublicKey, Wrapped>)
    requires pending.Valid()
    ensures ForgetAll(k, {}) == k && RemoveAll(pending, {}) == pending
  {
    var all := ForgetAll(k, {});
    assert all.pairs == k.pairs && all.peerIds == k.peerIds;
    assert all.byId == k.byId && all.holders == k.holders;
    KeptNone(pending.order);
    assert pending.items - {} == pending.items;
  }

  lemma RemoveOneMore(d: Dict<PublicKey, Wrapped>, gone: set<PublicKey>, p: PublicKey)
    requires d.Valid()
    ensures Remove(RemoveAll(d, gone), p) == RemoveAll(d, gone + {p})
  {
    KeptOneMore(d.order, gone, p);
    assert d.items - gone - {p} == d.items - (gone + {p});
    if p !in (d.items - gone) {
      KeptOnly(d.order, gone);
      WithoutAbsent(Kept(d.order, gone), p);
      assert d.items - (gone + {p}) == d.items - gone;
    }
  }

  class ChatClient {
    const session: RoomSession
    var username: string
    var peerUsers: map<PublicKey, string>
    var mismatched: set<PublicKey>
    var pending: Dict<PublicKey, Wrapped>
    var deferred: seq<Held>
    var held: nat
    /** Messages, and sets of verified names, handed to the interface. */
    var handed: seq<Message>
    var published: seq<set<string>>
    /** Where each message held so far has gone. */
    ghost var mail: State
    /** What was known when each message was handed over. */
    ghost var log: seq<Entry>

    ghost function Exchange(): Client
      reads this`peerUsers, this`mismatched, this`pending, session
    {
      Client(session.State(), peerUsers, mismatched, pending)
    }

    ghost function State(): Inbox
      reads this, session
    {
      Inbox(Exchange(), username, Reader(session.seen, log), published, mail)
    }

    /**
     The queue and the list of messages handed over are those of the record; nothing is selected between two calls.
    */
    ghost predicate Mailed()
      reads this`deferred, this`held, this`handed, this`mail, this`log
    {
      mail.queue == deferred && held == |mail.arrived| && mail.listen == [] && handed == Shown(log)
    }

    ghost predicate Valid()
      reads this, session
    {
      session.Remembers() && Tidy(session.ids, Exchange()) && Mailed()
    }

    constructor (session: RoomSession, username: string)
      requires session.Valid() && session.seen == []
      requires session.State() == Open(session.ids, session.room, session.master, session.own, session.senderKey)
      ensures Valid() && State() == Spec.Begin(session.State(), username) && this.session == session
    {
      this.session, this.username := session, username;
      peerUsers, mismatched, pending := map[], {}, Empty();
      deferred, held, handed, published := [], 0, [], [];
      mail, log := IDLE, [];
    }

    // Messages.

    /** Shows a message, withholds its content, or drops it as a repeat. */
    method OpenMessage(m: Message) returns (shown: Option<Message>)
      requires session.Valid()
      modifies session`seen, session`shown
      ensures session.Valid()
      ensures (session.seen, shown)
           == Receive(session.State(), session.boundRoom, username, peerUsers, old(session.seen), m)
    {
      var packet := DecryptContent(session.byId, session.boundRoom, m);
      if packet.failed.Some? || packet.enc.None? || m.content.NotText? {
        return Some(packet);
      }
      var token := TokenOf(m.content);
      var owner := if token.Token? && token.id in session.holders then Some(session.holders[token.id]) else None;
      var expected := if owner.None? then ""
      else if owner.value == Point(session.own) then username
      else if owner.value in peerUsers then peerUsers[owner.value] else "";
      if expected == "" || packet.user != expected {
        return Some(MarkUndecryptable(packet, DifferentSender));
      }
      var first := session.FirstSight(token);
      return if first then Some(packet) else None;
    }

    /** Every message that reaches the interface goes this way, held or not. */
    method Deliver(m: Message)
      requires session.Valid() && handed == Shown(log)
      modifies session`seen, session`shown, this`handed, this`log
      ensures session.Valid() && handed == Shown(log)
      ensures State() == Spec.Deliver(session.boundRoom, old(State()), m)
    {
      ghost var entry := Entry(Exchange(), username, m, m);
      var shown := OpenMessage(m);
      if shown.Some? {
        handed := handed + [shown.value];
        log := log + [entry.(shown := shown.value)];
        assert log[..|log| - 1] == old(log);
      }
    }

    /** One of the messages selected. */
    method HandOver(h: Held)
      requires session.Valid() && handed == Shown(log) && mail.listen != [] && mail.listen[0] == h
      modifies session`seen, session`shown, this`handed, this`log, this`mail
      ensures session.Valid() && handed == Shown(log)
      ensures State() == HandOne(session.boundRoom, old(State()), Listen)
    {
      Deliver(h.message);
      mail := Next(mail, Action.HandOver(Listen));
    }

    method HandOverAll(deliver: seq<Held>)
      requires session.Valid() && handed == Shown(log) && mail.listen == deliver
      modifies session`seen, session`shown, this`handed, this`log, this`mail
      ensures session.Valid() && handed == Shown(log)
      ensures State() == HandAll(session.boundRoom, old(State()), Listen)
    {
      for i := 0 to |deliver|
        invariant mail.listen == deliver[i..] && session.Valid() && handed == Shown(log)
        invariant HandAll(session.boundRoom, State(), Listen) == HandAll(session.boundRoom, old(State()), Listen)
      {
        HandOver(deliver[i]);
      }
    }

    /** What is readable, has waited long enough or is too much is delivered, oldest first. */
    method FlushDeferred(now: real)
      requires Valid()
      modifies session`seen, session`shown, this`handed, this`log, this`mail, this`deferred
      ensures Valid()
      ensures State() == Spec.Flush(session.boundRoom, old(State()), now)
      ensures |deferred| <= MAX_DEFERRED_MESSAGES
      ensures forall i :: 0 <= i < |deferred| ==> !Readable(session.byId, deferred[i]) && !TimedOut(now, deferred[i])
    {
      var deliver: seq<Held>;
      deliver, deferred := Queue.Flush(session.byId, now, deferred);
      mail := Next(mail, Select(Listen, session.byId, now));
      HandAllLeaves(session.boundRoom, State(), Listen);
      HandOverAll(deliver);
    }

    /** Holds a message whose key is not known, unless an offer has failed: then the key will never come. */
    method DeferIfUnreadable(m: Message, now: real) returns (yes: bool)
      requires Valid()
      modifies session`seen, session`shown, this`handed, this`log, this`mail, this`deferred, this`held
      ensures Valid()
      ensures yes <==> Defers(session.boundRoom, old(Exchange()), m)
      ensures State() == if yes then Spec.Flush(session.boundRoom, Arrive(session.boundRoom, old(State()), m, now), now)
                         else old(State())
    {
      if m.content.NotText? {
        return false;
      }
      var text := Decrypt(session.byId, session.boundRoom, TokenOf(m.content));
      if text.Ok? || text.error != UnknownKey || mismatched != {} {
        return false;
      }
      deferred := deferred + [Held(held, now, m)];
      mail := Next(mail, Hold(now, m));
      held := held + 1;
      FlushDeferred(now);
      return true;
    }

    /** What the listening loop does with a text. */
    method Incoming(m: Message, now: real)
      requires Valid()
      modifies session`seen, session`shown, this`handed, this`log, this`mail, this`deferred, this`held
      ensures Valid()
      ensures State() == Hear(session.boundRoom, old(State()), m, now)
    {
      FlushDeferred(now);
      var waits := DeferIfUnreadable(m, now);
      if !waits {
        Deliver(m);
      }
    }

    // Keys.

    method PublishVerified()
      modifies this`published
      ensures State() == Publish(old(State()))
    {
      var verified := set p | p in peerUsers && peerUsers[p] != "" && p in session.peerIds :: peerUsers[p];
      assert verified == VerifiedUsers(Exchange());
      published := published + [verified];
    }

    /** A key has been gained: held messages may be readable now, and somebody more is verified. */
    method KeyGained(now: real)
      requires Valid()
      modifies session`seen, session`shown, this`handed, this`log, this`mail, this`deferred, this`published
      ensures Valid()
      ensures State() == Publish(Spec.Flush(session.boundRoom, old(State()), now))
    {
      FlushDeferred(now);
      PublishVerified();
    }

    method AcceptOffer(peer: PublicKey, tag: Option<Tag>, user: string, nonce: nat)
      returns (reply: Option<Wrapped>, gained: bool)
      requires Valid()
      modifies this`peerUsers, this`mismatched, this`pending, session`pairs, session`byId, session`holders,
               session`peerIds
      ensures session.Valid()
      ensures (Exchange(), reply) == HandleOffer(session.ids, old(Exchange()), peer, tag, user, nonce)
      ensures gained <==> GainsByOffer(session.ids, old(Exchange()), peer, tag, nonce)
    {
      if tag.None? {
        return None, false;
      }
      var wrapped := session.AcceptOffer(peer, tag.value, nonce);
      if wrapped.Err? {
        if |mismatched| < MAX_TRACKED_STRANGERS {
          mismatched := mismatched + {peer};
        }
        return None, false;
      }
      peerUsers := peerUsers[peer := user];
      gained := false;
      if peer in pending.items {
        var waiting := pending.items[peer];
        pending := Remove(pending, peer);
        var accepted := session.AcceptSenderKey(peer, waiting);
        gained := accepted.Ok?;
      }
      return Some(wrapped.value), gained;
    }

    method AcceptSenderKey(peer: PublicKey, wrapped: Option<Wrapped>, to: Option<PublicKey>) returns (gained: bool)
      requires Valid()
      modifies this`pending, session`byId, session`holders, session`peerIds
      ensures session.Valid()
      ensures Exchange() == HandleSenderKey(session.ids, old(Exchange()), peer, wrapped, to)
      ensures gained <==> GainsByKey(session.ids, old(Exchange()), peer, wrapped, to)
    {
      if to != Some(Point(session.own)) || wrapped.None? {
        return false;
      }
      var accepted := session.AcceptSenderKey(peer, wrapped.value);
      if accepted == Err(UnknownSenderKey) {
        if peer !in pending.items && |pending.order| >= MAX_TRACKED_STRANGERS {
          pending := Remove(pending, pending.order[0]);
        }
        pending := Put(pending, peer, wrapped.value);
      }
      return accepted.Ok?;
    }

    /** Packets without a key, and our own coming back, end here; the others are offers or sender keys. */
    method LearnKey(p: KeyPacket, nonce: nat) returns (reply: Option<Wrapped>, gained: bool)
      requires Valid()
      modifies this`peerUsers, this`mismatched, this`pending, session`pairs, session`byId, session`holders,
               session`peerIds
      ensures session.Valid() && Tidy(session.ids, Exchange())
      ensures (Exchange(), reply) == X.Handle(session.ids, old(Exchange()), p, nonce)
      ensures gained <==> GainsKey(session.ids, old(Exchange()), p, nonce)
    {
      HandleTidy(session.ids, Exchange(), p, nonce);
      if p.pub.None? || p.pub.value == Point(session.own) {
        return None, false;
      }
      match p
      case KeyOffer(pub, mac, user) => reply, gained := AcceptOffer(pub.value, mac, user, nonce);
      case SenderKeyFor(pub, key, to) =>
        gained := AcceptSenderKey(pub.value, key, to);
        reply := None;
    }

    /** The reply is the sender key wrapped for the peer, when its offer holds. */
    method HandleKeyExchange(p: KeyPacket, nonce: nat, now: real) returns (reply: Option<Wrapped>)
      requires Valid()
      modifies this`peerUsers, this`mismatched, this`pending, session`pairs, session`byId, session`holders,
               session`peerIds,
               session`seen, session`shown, this`handed, this`log, this`mail, this`deferred, this`published
      ensures Valid()
      ensures State() == Absorb(session.ids, session.boundRoom, old(State()), p, nonce, now)
      ensures reply == X.Handle(session.ids, old(Exchange()), p, nonce).1
    {
      var gained: bool;
      reply, gained := LearnKey(p, nonce);
      assert Valid();
      assert State() == TakeKey(session.ids, old(State()), p, nonce);
      if gained {
        KeyGained(now);
      }
    }

    method Forget(gone: set<PublicKey>)
      requires pending.Valid()
      modifies this`peerUsers, this`pending, session`pairs, session`byId, session`holders, session`peerIds
      ensures session.State() == ForgetAll(old(session.State()), gone)
      ensures peerUsers == old(peerUsers) - gone && pending == RemoveAll(old(pending), gone)
    {
      var todo := gone;
      ghost var done: set<PublicKey> := {};
      ghost var keys, names, waiting := session.State(), peerUsers, pending;
      ForgetNone(keys, waiting);
      assert names - {} == names;
      while todo != {}
        invariant todo == gone - done && done <= gone
        invariant session.State() == ForgetAll(keys, done)
        invariant peerUsers == names - done
        invariant pending == RemoveAll(waiting, done)
        decreases |todo|
      {
        assert (forall p :: p !in todo) ==> todo == {};
        var p :| p in todo;
        ForgetOneMore(keys, done, p);
        RemoveOneMore(waiting, done, p);
        assert names - done - {p} == names - (done + {p});
        session.ForgetPeer(p);
        peerUsers := peerUsers - {p};
        pending := Remove(pending, p);
        todo := todo - {p};
        done := done + {p};
      }
      assert done == gone;
    }

    method ForgetThose(gone: set<PublicKey>, users: set<string>)
      requires Valid() && gone == Absent(Exchange(), users)
      modifies this`peerUsers, this`pending, session`pairs, session`byId, session`holders, session`peerIds
      ensures Valid() && State() == SeeRoster(old(State()), users)
    {
      ForgetAbsentTidy(session.ids, Exchange(), users);
      Forget(gone);
    }

    /** Forgets, one by one, the peers whose recorded name is not on the member list. */
    method ForgetAbsentPeers(users: set<string>)
      requires Valid()
      modifies this`peerUsers, this`pending, this`published, session`pairs, session`byId, session`holders,
               session`peerIds
      ensures Valid() && State() == Forgotten(old(State()), users)
    {
      var gone := set p | p in peerUsers && peerUsers[p] != "" && peerUsers[p] !in users;
      assert gone == Absent(Exchange(), users);
      ForgetThose(gone, users);
      if gone != {} {
        PublishVerified();
      }
    }

    method ForgetEverybody()
      requires session.Valid() && Tidy(session.ids, Exchange())
      modifies this`peerUsers, this`pending, this`mismatched, session`pairs, session`byId, session`holders,
               session`peerIds
      ensures session.Valid() && Tidy(session.ids, Exchange())
      ensures Exchange() == Start(Open(session.ids, session.room, session.master, session.own, session.senderKey))
    {
      DroppingAllIsFresh(session.ids, session.State());
      OpenIsCoherent(session.ids, session.room, session.master, session.own, session.senderKey);
      Forget(peerUsers.Keys);
      peerUsers, mismatched, pending := map[], {}, Empty();
    }

    method DropAllPeers()
      requires Valid()
      modifies this`peerUsers, this`pending, this`mismatched, this`deferred, this`mail,
               session`pairs, session`byId, session`holders, session`peerIds
      ensures Valid() && deferred == []
      ensures State() == DropAll(session.ids, old(State()))
    {
      ForgetEverybody();
      deferred := [];
      mail := Next(mail, DropSession);
    }
  }
}
