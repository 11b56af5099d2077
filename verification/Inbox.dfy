/** Reading texts: what is shown, what is remembered, and whom it was shown for. */
module Readers {
  import opened Common
  import opened SessionKeys
  import opened KeyExchange
  import opened Messages
  import opened SeenMemory
  import opened Envelope

  /** One message as it came and as it was shown, with what the client knew at that moment. */
  datatype Entry = Entry(knew: Client, name: string, original: Message, shown: Message)

  /** What a client has shown so far, and which of it it still remembers. */
  datatype Reader = Reader(seen: seq<Head>, log: seq<Entry>)

  const NOTHING_READ: Reader := Reader([], [])

  /** A text under a scheme whose content was not withheld. */
  predicate Opened(e: Entry) {
    e.original.enc.Some? && !e.original.content.NotText? && e.shown.failed.None?
  }

  function Read(room: string, r: Reader, c: Client, name: string, m: Message): Reader {
    var (seen, shown) := Receive(c.keys, room, name, c.peerUsers, r.seen, m);
    Reader(seen, if shown.Some? then r.log + [Entry(c, name, m, shown.value)] else r.log)
  }

  /** What names the opened texts, oldest first. */
  function Heads(log: seq<Entry>): seq<Head> {
    if log == [] then []
    else
      var e := log[|log| - 1];
      if Opened(e) && e.original.content.Cipher? && e.original.content.token.Token?
      then Heads(log[..|log| - 1]) + [HeadOf(e.original.content.token).value]
      else Heads(log[..|log| - 1])
  }

  /**
   The text came in under a known id, sealed with that id's key for this room, and in the name recorded for its
   holder.
  */
  predicate Original(ids: KeyIds, room: string, e: Entry) {
    var k := e.knew.keys;
    && e.original.content.Cipher? && e.original.content.token.Token? && e.original.enc == Some(SCHEME)
    && var t := e.original.content.token;
    && t.id in k.byId && t.id in k.holders && ids(k.byId[t.id]) == t.id
    && t.body.Sealed? && t.body.payload.Text?
    && t.body == Ciphertext.Sealed(k.byId[t.id], t.nonce, room, Text(t.body.payload.content))
    && e.shown.content == Clear(t.body.payload.content)
    && e.shown.user == e.original.user == NameOf(k, e.name, e.knew.peerUsers, Some(k.holders[t.id]))
    && e.shown.user != ""
  }

  ghost predicate AllOriginal(ids: KeyIds, room: string, log: seq<Entry>) {
    forall i :: 0 <= i < |log| && Opened(log[i]) ==> Coherent(ids, log[i].knew.keys) && Original(ids, room, log[i])
  }

  /** The memory is the newest of what was opened, and nothing was opened twice within its reach. */
  ghost predicate Remembers(r: Reader) {
    r.seen == Suffix(Heads(r.log), SEEN_MESSAGES_LIMIT) && Spaced(Heads(r.log), SEEN_MESSAGES_LIMIT)
  }

  lemma HeadsOfLonger(log: seq<Entry>, e: Entry)
    ensures Heads(log + [e])
         == if Opened(e) && e.original.content.Cipher? && e.original.content.token.Token?
            then Heads(log) + [HeadOf(e.original.content.token).value] else Heads(log)
  {
    assert (log + [e])[..|log|] == log;
  }

  /** One more message shown: if it was opened, it is original and new, and is remembered; if not, nothing is. */
  ghost predicate Adds(ids: KeyIds, room: string, r: Reader, after: Reader, e: Entry) {
    && after.log == r.log + [e]
    && if Opened(e) then
         && Original(ids, room, e)
         && var head := HeadOf(e.original.content.token).value;
         head !in r.seen && after.seen == Remember(r.seen, head)
       else after.seen == r.seen
  }

  lemma ReadAdds(ids: KeyIds, room: string, r: Reader, c: Client, name: string, m: Message)
    requires Coherent(ids, c.keys)
    ensures var after := Read(room, r, c, name, m);
            || after == r
            || (&& |after.log| == |r.log| + 1 && after.log[|r.log|].knew == c && after.log[|r.log|].original == m
                && Adds(ids, room, r, after, after.log[|r.log|]))
  {
    var (seen, shown) := Receive(c.keys, room, name, c.peerUsers, r.seen, m);
    if shown.Some? {
      var e := Entry(c, name, m, shown.value);
      if m.enc.Some? && !m.content.NotText? {
        DeliveredIsOriginal(ids, c.keys, room, name, c.peerUsers, r.seen, m);
      }
      if Opened(e) {
        assert Original(ids, room, e);
      }
    }
  }

  /** A genuine text that is new is shown word for word. */
  lemma GenuineIsRead(ids: KeyIds, room: string, r: Reader, c: Client, name: string, m: Message)
    requires Coherent(ids, c.keys) && m.failed.None? && Genuine(c.keys, room, name, c.peerUsers, m)
    requires HeadOf(m.content.token).value !in r.seen
    ensures Read(room, r, c, name, m).log
         == r.log + [Entry(c, name, m, m.(content := Clear(m.content.token.body.payload.content)))]
  {
    ReceptionExactly(ids, c.keys, room, name, c.peerUsers, r.seen, m);
  }

  lemma ReadRemembers(ids: KeyIds, room: string, r: Reader, c: Client, name: string, m: Message)
    requires Coherent(ids, c.keys) && Remembers(r)
    ensures Remembers(Read(room, r, c, name, m))
  {
    ReadAdds(ids, room, r, c, name, m);
    var after := Read(room, r, c, name, m);
    if after != r {
      var e := after.log[|r.log|];
      HeadsOfLonger(r.log, e);
      if Opened(e) {
        RememberIsSuffix(Heads(r.log), HeadOf(e.original.content.token).value);
      }
    }
  }

  lemma ReadIsOriginal(ids: KeyIds, room: string, r: Reader, c: Client, name: string, m: Message)
    requires Coherent(ids, c.keys) && AllOriginal(ids, room, r.log)
    ensures AllOriginal(ids, room, Read(room, r, c, name, m).log)
  {
    ReadAdds(ids, room, r, c, name, m);
  }
}

/** One client in one room: keys, names, texts, and texts held back, with its two threads at work. */
module Inboxes {
  import opened Common
  import opened KeyAgreement
  import opened SessionKeys
  import opened KeyExchange
  import opened Messages
  import opened Envelope
  import opened DeferredQueue
  import opened Readers

  /** `published`: each set of verified names handed to the interface. `mail`: messages held, selected and delivered. */
  datatype Inbox = Inbox(exchange: Client, name: string, reader: Reader, published: seq<set<string>>, mail: State)

  function Begin(keys: Keys, name: string): Inbox {
    Inbox(Start(keys), name, NOTHING_READ, [], IDLE)
  }

  function Deliver(room: string, x: Inbox, m: Message): Inbox {
    x.(reader := Read(room, x.reader, x.exchange, x.name, m))
  }

  function Publish(x: Inbox): Inbox {
    x.(published := x.published + [VerifiedUsers(x.exchange)])
  }

  /** Whether an offer releases a waiting key that opens. */
  predicate GainsByOffer(ids: KeyIds, c: Client, peer: PublicKey, tag: Option<Tag>, nonce: nat) {
    && tag.Some? && AcceptOffer(c.keys, peer, tag.value, nonce).Ok? && peer in c.pending.items
    && Opens(ids, c, peer, tag.value, nonce, c.pending.items[peer])
  }

  /** Whether a sender key for us comes from a known peer and opens. */
  predicate GainsByKey(ids: KeyIds, c: Client, peer: PublicKey, wrapped: Option<Wrapped>, to: Option<PublicKey>) {
    to == Some(c.keys.PublicKey()) && wrapped.Some? && AcceptSenderKey(ids, c.keys, peer, wrapped.value).Ok?
  }

  predicate GainsKey(ids: KeyIds, c: Client, p: KeyPacket, nonce: nat) {
    && p.pub.Some? && p.pub != Some(c.keys.PublicKey())
    && match p
       case KeyOffer(pub, mac, _) => GainsByOffer(ids, c, pub.value, mac, nonce)
       case SenderKeyFor(pub, key, to) => GainsByKey(ids, c, pub.value, key, to)
  }

  function TakeKey(ids: KeyIds, x: Inbox, p: KeyPacket, nonce: nat): Inbox {
    x.(exchange := Handle(ids, x.exchange, p, nonce).0)
  }

  function SeeRoster(x: Inbox, users: set<string>): Inbox {
    x.(exchange := ForgetAbsent(x.exchange, users))
  }

  /** A message whose key is unknown waits for it, unless an offer has failed. */
  predicate Defers(room: string, c: Client, m: Message) {
    !m.content.NotText? && c.mismatched == {} && Decrypt(c.keys.byId, room, TokenOf(m.content)) == Err(UnknownKey)
  }

  function Arrive(room: string, x: Inbox, m: Message, now: real): Inbox {
    if Defers(room, x.exchange, m) then x.(mail := Next(x.mail, Hold(now, m))) else Deliver(room, x, m)
  }

  function Choose(x: Inbox, thread: Thread, now: real): Inbox {
    x.(mail := Next(x.mail, Select(thread, x.exchange.keys.byId, now)))
  }

  /** A thread delivers the next of the messages it selected: held messages are read like any other. */
  function HandOne(room: string, x: Inbox, thread: Thread): Inbox {
    var hand := Hand(x.mail, thread);
    if hand == [] then x
    else Deliver(room, x, hand[0].message).(mail := Next(x.mail, HandOver(thread)))
  }

  /** Everybody is forgotten and nothing is held; what was shown is still remembered. */
  function DropAll(ids: KeyIds, x: Inbox): Inbox {
    var k := x.exchange.keys;
    x.(exchange := Start(Open(ids, k.room, k.master, k.own, k.senderKey)), mail := Next(x.mail, DropSession))
  }

  datatype Event =
    | KeyArrives(packet: KeyPacket, nonce: nat)
    | RosterArrives(users: set<string>)
    | NameSettled(name: string)
    | Publishes
    | TextArrives(message: Message, now: real)
    | PastTextArrives(message: Message)
    | Selects(thread: Thread, now: real)
    | HandsOver(thread: Thread)
    | Drops

  function Step(ids: KeyIds, room: string, x: Inbox, e: Event): Inbox {
    match e
    case KeyArrives(p, nonce) => TakeKey(ids, x, p, nonce)
    case RosterArrives(users) => SeeRoster(x, users)
    case NameSettled(name) => x.(name := name)
    case Publishes => Publish(x)
    case TextArrives(m, now) => Arrive(room, x, m, now)
    case PastTextArrives(m) => Deliver(room, x, m)
    case Selects(thread, now) => Choose(x, thread, now)
    case HandsOver(thread) => HandOne(room, x, thread)
    case Drops => DropAll(ids, x)
  }

  function Run(ids: KeyIds, room: string, start: Inbox, events: seq<Event>): Inbox {
    if events == [] then start
    else Step(ids, room, Run(ids, room, start, events[..|events| - 1]), events[|events| - 1])
  }

  // What every step keeps.

  ghost predicate Accounted(mail: State) {
    Balanced(mail) && InOrder(mail)
  }

  ghost predicate Inv(ids: KeyIds, room: string, x: Inbox) {
    Tidy(ids, x.exchange) && Remembers(x.reader) && AllOriginal(ids, room, x.reader.log) && Accounted(x.mail)
  }

  lemma MailKeeps(mail: State, a: Action)
    requires Accounted(mail)
    ensures Accounted(Next(mail, a))
  {
    NextBalanced(mail, a);
    NextInOrder(mail, a);
  }

  lemma DeliverKeeps(ids: KeyIds, room: string, x: Inbox, m: Message)
    requires Inv(ids, room, x)
    ensures Inv(ids, room, Deliver(room, x, m))
  {
    ReadRemembers(ids, room, x.reader, x.exchange, x.name, m);
    ReadIsOriginal(ids, room, x.reader, x.exchange, x.name, m);
  }

  lemma TakeKeyKeeps(ids: KeyIds, room: string, x: Inbox, p: KeyPacket, nonce: nat)
    requires Inv(ids, room, x)
    ensures Inv(ids, room, TakeKey(ids, x, p, nonce))
  {
    HandleTidy(ids, x.exchange, p, nonce);
  }

  lemma SeeRosterKeeps(ids: KeyIds, room: string, x: Inbox, users: set<string>)
    requires Inv(ids, room, x)
    ensures Inv(ids, room, SeeRoster(x, users))
  {
    ForgetAbsentTidy(ids, x.exchange, users);
  }

  lemma DropAllKeeps(ids: KeyIds, room: string, x: Inbox)
    requires Inv(ids, room, x)
    ensures Inv(ids, room, DropAll(ids, x))
  {
    var k := x.exchange.keys;
    OpenIsCoherent(ids, k.room, k.master, k.own, k.senderKey);
    MailKeeps(x.mail, DropSession);
  }

  lemma ArriveKeeps(ids: KeyIds, room: string, x: Inbox, m: Message, now: real)
    requires Inv(ids, room, x)
    ensures Inv(ids, room, Arrive(room, x, m, now))
  {
    DeliverKeeps(ids, room, x, m);
    MailKeeps(x.mail, Hold(now, m));
  }

  lemma ChooseKeeps(ids: KeyIds, room: string, x: Inbox, thread: Thread, now: real)
    requires Inv(ids, room, x)
    ensures Inv(ids, room, Choose(x, thread, now))
  {
    MailKeeps(x.mail, Select(thread, x.exchange.keys.byId, now));
  }

  lemma HandOneKeeps(ids: KeyIds, room: string, x: Inbox, thread: Thread)
    requires Inv(ids, room, x)
    ensures Inv(ids, room, HandOne(room, x, thread))
  {
    if Hand(x.mail, thread) != [] {
      DeliverKeeps(ids, room, x, Hand(x.mail, thread)[0].message);
      MailKeeps(x.mail, HandOver(thread));
    }
  }

  lemma StepKeeps(ids: KeyIds, room: string, x: Inbox, e: Event)
    requires Inv(ids, room, x)
    ensures Inv(ids, room, Step(ids, room, x, e))
  {
    match e
    case KeyArrives(p, nonce) => TakeKeyKeeps(ids, room, x, p, nonce);
    case RosterArrives(users) => SeeRosterKeeps(ids, room, x, users);
    case NameSettled(_) =>
    case Publishes =>
    case TextArrives(m, now) => ArriveKeeps(ids, room, x, m, now);
    case PastTextArrives(m) => DeliverKeeps(ids, room, x, m);
    case Selects(thread, now) => ChooseKeeps(ids, room, x, thread, now);
    case HandsOver(thread) => HandOneKeeps(ids, room, x, thread);
    case Drops => DropAllKeeps(ids, room, x);
  }

  /**
   In every run in one room, whatever the packets and however the threads interleave: the key maps stay tidy; the
   memory is exactly the most recent texts opened, none of them opened twice within its reach; every text opened was
   sealed with the key of one holder and carries the name then recorded for that holder; and every message held is
   accounted for.
  */
  lemma {:induction false} EveryRunKeeps(ids: KeyIds, room: string, keys: Keys, name: string, events: seq<Event>)
    requires keys == Open(ids, keys.room, keys.master, keys.own, keys.senderKey)
    ensures Inv(ids, room, Run(ids, room, Begin(keys, name), events))
  {
    if events == [] {
      OpenIsCoherent(ids, keys.room, keys.master, keys.own, keys.senderKey);
    } else {
      EveryRunKeeps(ids, room, keys, name, events[..|events| - 1]);
      StepKeeps(ids, room, Run(ids, room, Begin(keys, name), events[..|events| - 1]), events[|events| - 1]);
    }
  }

  /** What a client knew, and went by, after the first `n` events. */
  predicate KnownAt(ids: KeyIds, room: string, start: Inbox, events: seq<Event>, n: nat, e: Entry) {
    && n < |events| && Run(ids, room, start, events[..n]).exchange == e.knew
    && Run(ids, room, start, events[..n]).name == e.name
  }

  lemma ReadExtends(room: string, r: Reader, c: Client, name: string, m: Message)
    ensures var log := Read(room, r, c, name, m).log;
            log == r.log || (|log| == |r.log| + 1 && log == r.log + [log[|r.log|]]
                             && log[|r.log|].knew == c && log[|r.log|].name == name)
  {
  }

  /** A step shows at most one message more, with what is known just then. */
  lemma StepExtends(ids: KeyIds, room: string, x: Inbox, e: Event)
    ensures var before, log := x.reader.log, Step(ids, room, x, e).reader.log;
            log == before || (|log| == |before| + 1 && log == before + [log[|before|]]
                              && log[|before|].knew == x.exchange && log[|before|].name == x.name)
  {
    match e
    case TextArrives(m, now) => ReadExtends(room, x.reader, x.exchange, x.name, m);
    case PastTextArrives(m) => ReadExtends(room, x.reader, x.exchange, x.name, m);
    case HandsOver(thread) =>
      if Hand(x.mail, thread) != [] {
        ReadExtends(room, x.reader, x.exchange, x.name, Hand(x.mail, thread)[0].message);
      }
    case _ =>
  }

  lemma KnownInLonger(ids: KeyIds, room: string, start: Inbox, events: seq<Event>, m: nat, n: nat, e: Entry)
    requires m <= |events| && KnownAt(ids, room, start, events[..m], n, e)
    ensures KnownAt(ids, room, start, events, n, e)
  {
    assert events[..m][..n] == events[..n];
  }

  /** What goes with a message shown is the client's state at some point of the run. */
  lemma {:induction false} EntriesAreOfTheRun(ids: KeyIds, room: string, start: Inbox, events: seq<Event>, k: nat)
    requires start.reader.log == [] && k < |Run(ids, room, start, events).reader.log|
    ensures exists n: nat :: KnownAt(ids, room, start, events, n, Run(ids, room, start, events).reader.log[k])
  {
    if events == [] {
    } else {
      var last := |events| - 1;
      var before := Run(ids, room, start, events[..last]);
      StepExtends(ids, room, before, events[last]);
      var e := Run(ids, room, start, events).reader.log[k];
      if k < |before.reader.log| {
        EntriesAreOfTheRun(ids, room, start, events[..last], k);
        var n: nat :| KnownAt(ids, room, start, events[..last], n, e);
        KnownInLonger(ids, room, start, events, last, n, e);
      } else {
        assert KnownAt(ids, room, start, events, last, e);
      }
    }
  }

  /**
   So every text opened in a run was sealed with the key of one holder, and carries the name recorded for that holder
   at that point of the run.
  */
  lemma OpenedTextsAreOriginal(ids: KeyIds, room: string, keys: Keys, name: string, events: seq<Event>, k: nat)
    requires keys == Open(ids, keys.room, keys.master, keys.own, keys.senderKey)
    requires k < |Run(ids, room, Begin(keys, name), events).reader.log|
    requires Opened(Run(ids, room, Begin(keys, name), events).reader.log[k])
    ensures var e := Run(ids, room, Begin(keys, name), events).reader.log[k];
            Original(ids, room, e) && exists n: nat :: KnownAt(ids, room, Begin(keys, name), events, n, e)
  {
    EveryRunKeeps(ids, room, keys, name, events);
    EntriesAreOfTheRun(ids, room, Begin(keys, name), events, k);
  }

  /** So between two openings of one text lie at least as many other openings as the memory holds. */
  lemma NoTextReturnsEarly(ids: KeyIds, room: string, keys: Keys, name: string, events: seq<Event>, i: nat, j: nat)
    requires keys == Open(ids, keys.room, keys.master, keys.own, keys.senderKey)
    requires i < j < |Heads(Run(ids, room, Begin(keys, name), events).reader.log)|
    ensures var heads := Heads(Run(ids, room, Begin(keys, name), events).reader.log);
            heads[i] == heads[j] ==> j - i - 1 >= SeenMemory.SEEN_MESSAGES_LIMIT
  {
    EveryRunKeeps(ids, room, keys, name, events);
  }

  // What one thread does in one go.

  /** A thread delivers everything it selected. */
  function HandAll(room: string, x: Inbox, thread: Thread): Inbox
    decreases |Hand(x.mail, thread)|
  {
    if Hand(x.mail, thread) == [] then x else HandAll(room, HandOne(room, x, thread), thread)
  }

  function Flush(room: string, x: Inbox, now: real): Inbox {
    HandAll(room, Choose(x, Listen, now), Listen)
  }

  /** A key packet: when it yields a key, held messages are looked through and the verified names are published. */
  function Absorb(ids: KeyIds, room: string, x: Inbox, p: KeyPacket, nonce: nat, now: real): Inbox {
    var after := TakeKey(ids, x, p, nonce);
    if GainsKey(ids, x.exchange, p, nonce) then Publish(Flush(room, after, now)) else after
  }

  /** A member list: when somebody is forgotten, the verified names are published. */
  function Forgotten(x: Inbox, users: set<string>): Inbox {
    if Absent(x.exchange, users) != {} then Publish(SeeRoster(x, users)) else SeeRoster(x, users)
  }

  /**
   A text just arrived, held messages having been looked through: it is held and they are looked through again, or it
   is read.
  */
  function Hear(room: string, x: Inbox, m: Message, now: real): Inbox {
    var y := Flush(room, x, now);
    if Defers(room, y.exchange, m) then Flush(room, Arrive(room, y, m, now), now) else Arrive(room, y, m, now)
  }

  /** Delivering leaves everything else as it is, and the hand empty. */
  lemma {:induction false} HandAllLeaves(room: string, x: Inbox, thread: Thread)
    ensures var after := HandAll(room, x, thread);
            && after.exchange == x.exchange && after.name == x.name && after.published == x.published
            && after.mail.queue == x.mail.queue && after.mail.arrived == x.mail.arrived
            && Hand(after.mail, thread) == []
    decreases |Hand(x.mail, thread)|
  {
    if Hand(x.mail, thread) == [] {
    } else {
      HandAllLeaves(room, HandOne(room, x, thread), thread);
    }
  }

  lemma {:induction false} HandAllKeeps(ids: KeyIds, room: string, x: Inbox, thread: Thread)
    requires Inv(ids, room, x)
    ensures Inv(ids, room, HandAll(room, x, thread))
    decreases |Hand(x.mail, thread)|
  {
    if Hand(x.mail, thread) == [] {
    } else {
      HandOneKeeps(ids, room, x, thread);
      HandAllKeeps(ids, room, HandOne(room, x, thread), thread);
    }
  }

  lemma FlushKeeps(ids: KeyIds, room: string, x: Inbox, now: real)
    requires Inv(ids, room, x)
    ensures Inv(ids, room, Flush(room, x, now))
  {
    ChooseKeeps(ids, room, x, Listen, now);
    HandAllKeeps(ids, room, Choose(x, Listen, now), Listen);
  }

  lemma AbsorbKeeps(ids: KeyIds, room: string, x: Inbox, p: KeyPacket, nonce: nat, now: real)
    requires Inv(ids, room, x)
    ensures Inv(ids, room, Absorb(ids, room, x, p, nonce, now))
  {
    TakeKeyKeeps(ids, room, x, p, nonce);
    FlushKeeps(ids, room, TakeKey(ids, x, p, nonce), now);
  }

  lemma HearKeeps(ids: KeyIds, room: string, x: Inbox, m: Message, now: real)
    requires Inv(ids, room, x)
    ensures Inv(ids, room, Hear(room, x, m, now))
  {
    FlushKeeps(ids, room, x, now);
    var y := Flush(room, x, now);
    ArriveKeeps(ids, room, y, m, now);
    FlushKeeps(ids, room, Arrive(room, y, m, now), now);
  }

  /**
   Dropping everybody leaves our own key alone, no name, no key, no mismatch and nothing held; what was shown stays
   shown.
  */
  lemma DropAllForgets(ids: KeyIds, x: Inbox)
    requires Coherent(ids, x.exchange.keys)
    ensures var after := DropAll(ids, x);
            && (forall p :: EntryOf(after.exchange.keys, p) == (None, None, None))
            && after.exchange.keys.byId == map[ids(x.exchange.keys.senderKey) := x.exchange.keys.senderKey]
            && after.exchange.peerUsers == map[] && after.exchange.mismatched == {}
            && after.exchange.pending.order == []
            && after.mail.queue == [] && after.mail.cleared == x.mail.cleared + x.mail.queue && after.reader == x.reader
  {
  }

  // A text that arrives is not lost.

  /** A genuine text seen before: the one thing that is not shown. */
  predicate IsRepeat(room: string, x: Inbox, m: Message) {
    && Genuine(x.exchange.keys, room, x.name, x.exchange.peerUsers, m)
    && HeadOf(m.content.token).value in x.reader.seen
  }

  lemma DeliverShows(ids: KeyIds, room: string, x: Inbox, m: Message)
    requires Coherent(ids, x.exchange.keys) && m.failed.None?
    ensures var log := Deliver(room, x, m).reader.log;
            if IsRepeat(room, x, m) then log == x.reader.log
            else |log| == |x.reader.log| + 1 && log == x.reader.log + [log[|x.reader.log|]]
                 && log[|x.reader.log|].original == m
  {
    ReceptionExactly(ids, x.exchange.keys, room, x.name, x.exchange.peerUsers, x.reader.seen, m);
  }

  lemma MoveFirst<T>(done: seq<T>, todo: seq<T>)
    requires todo != []
    ensures done + [todo[0]] + todo[1..] == done + todo
  {
    assert [todo[0]] + todo[1..] == todo;
  }

  lemma HandOneDelivers(room: string, x: Inbox, thread: Thread)
    requires Hand(x.mail, thread) != []
    ensures var hand, after := Hand(x.mail, thread), HandOne(room, x, thread).mail;
            Hand(after, thread) == hand[1..] && after.delivered == x.mail.delivered + [hand[0]]
  {
  }

  lemma {:induction false} HandAllDelivers(room: string, x: Inbox, thread: Thread)
    ensures HandAll(room, x, thread).mail.delivered == x.mail.delivered + Hand(x.mail, thread)
    decreases |Hand(x.mail, thread)|
  {
    var hand := Hand(x.mail, thread);
    if hand == [] {
      assert x.mail.delivered + hand == x.mail.delivered;
    } else {
      HandOneDelivers(room, x, thread);
      HandAllDelivers(room, HandOne(room, x, thread), thread);
      MoveFirst(x.mail.delivered, hand);
    }
  }

  /** A flush by a thread with nothing in hand delivers part of the queue and keeps the rest. */
  lemma FlushSplits(room: string, x: Inbox, now: real)
    requires x.mail.listen == []
    ensures var after, (deliver, keep) := Flush(room, x, now), Flushed(x.exchange.keys.byId, now, x.mail.queue);
            && after.mail.queue == keep && after.mail.delivered == x.mail.delivered + deliver
            && after.mail.arrived == x.mail.arrived && after.mail.listen == []
            && after.exchange == x.exchange && after.name == x.name
  {
    HandAllDelivers(room, Choose(x, Listen, now), Listen);
    HandAllLeaves(room, Choose(x, Listen, now), Listen);
  }

  lemma SplitHasAll(byId: map<nat, SenderKey>, now: real, queue: seq<Held>, h: Held)
    requires h in queue
    ensures h in Flushed(byId, now, queue).0 || h in Flushed(byId, now, queue).1
  {
    var (deliver, keep) := Flushed(byId, now, queue);
    SplitBalanced(byId, now, Overflow(queue), queue, |queue|);
    assert queue[..|queue|] == queue;
    assert multiset(queue)[h] == multiset(deliver)[h] + multiset(keep)[h];
  }

  /** Held is exactly a sealed text whose key is not among ours, as long as no offer has failed. */
  lemma DefersExactly(room: string, c: Client, m: Message)
    ensures Defers(room, c, m) <==> && m.content.Cipher? && m.content.token.Token? && m.content.token.id !in c.keys.byId
                                    && c.mismatched == {}
  {
  }

  /** A text whose key is unknown, while no offer has failed, is held from its arrival until it is delivered. */
  lemma HeardTextIsHeld(room: string, x: Inbox, m: Message, now: real)
    requires x.mail.listen == [] && Defers(room, x.exchange, m)
    ensures var after, h := Hear(room, x, m, now), Held(|x.mail.arrived|, now, m);
            after.mail.arrived == x.mail.arrived + [h] && (h in after.mail.queue || h in after.mail.delivered)
  {
    var y := Flush(room, x, now);
    FlushSplits(room, x, now);
    var held := Arrive(room, y, m, now);
    FlushSplits(room, held, now);
    SplitHasAll(held.exchange.keys.byId, now, held.mail.queue, Held(|x.mail.arrived|, now, m));
  }

  /** Any other text is shown at once, after the held ones that are due, unless it is a repeat. */
  lemma HeardTextIsShown(ids: KeyIds, room: string, x: Inbox, m: Message, now: real)
    requires x.mail.listen == [] && Coherent(ids, x.exchange.keys) && m.failed.None? && !Defers(room, x.exchange, m)
    ensures var y, log := Flush(room, x, now), Hear(room, x, m, now).reader.log;
            if IsRepeat(room, y, m) then log == y.reader.log
            else |log| == |y.reader.log| + 1 && log == y.reader.log + [log[|y.reader.log|]]
                 && log[|y.reader.log|].original == m
  {
    FlushSplits(room, x, now);
    DeliverShows(ids, room, Flush(room, x, now), m);
  }

  /** A genuine new text is the last thing the interface is handed, word for word and unmarked. */
  lemma HonestTextIsHeard(ids: KeyIds, room: string, x: Inbox, m: Message, now: real)
    requires x.mail.listen == [] && Coherent(ids, x.exchange.keys) && m.failed.None?
    requires Genuine(x.exchange.keys, room, x.name, x.exchange.peerUsers, m)
    requires HeadOf(m.content.token).value !in Flush(room, x, now).reader.seen
    ensures var log := Hear(room, x, m, now).reader.log;
            |log| > 0 && log[|log| - 1].original == m
            && log[|log| - 1].shown == m.(content := Clear(m.content.token.body.payload.content))
  {
    var y := Flush(room, x, now);
    FlushSplits(room, x, now);
    ReceptionExactly(ids, y.exchange.keys, room, y.name, y.exchange.peerUsers, y.reader.seen, m);
  }

  // What was waiting for a key is not left waiting.

  /** Nothing held is readable, and nothing is selected. */
  ghost predicate Settled(x: Inbox) {
    x.mail.listen == [] && forall h :: h in x.mail.queue ==> !Readable(x.exchange.keys.byId, h)
  }

  lemma FlushSettles(room: string, x: Inbox, now: real)
    requires x.mail.listen == []
    ensures Settled(Flush(room, x, now))
  {
    FlushSplits(room, x, now);
    SplitKeeps(x.exchange.keys.byId, now, Overflow(x.mail.queue), x.mail.queue, |x.mail.queue|);
  }

  lemma KeysOnlyGained(ids: KeyIds, c: Client, p: KeyPacket, nonce: nat)
    requires !GainsKey(ids, c, p, nonce)
    ensures Handle(ids, c, p, nonce).0.keys.byId == c.keys.byId
            && Handle(ids, c, p, nonce).0.keys.peerIds == c.keys.peerIds
  {
  }

  /** A key packet may make held messages readable; then they are delivered with it, and whoever is new is published. */
  lemma AbsorbSettles(ids: KeyIds, room: string, x: Inbox, p: KeyPacket, nonce: nat, now: real)
    requires Settled(x)
    ensures var after := Absorb(ids, room, x, p, nonce, now);
            && Settled(after)
            && (after.exchange.keys.peerIds != x.exchange.keys.peerIds ==>
                  |after.published| == |x.published| + 1
                  && after.published[|x.published|] == VerifiedUsers(after.exchange))
  {
    var taken := TakeKey(ids, x, p, nonce);
    if GainsKey(ids, x.exchange, p, nonce) {
      FlushSettles(room, taken, now);
      FlushSplits(room, taken, now);
      HandAllLeaves(room, Choose(taken, Listen, now), Listen);
    } else {
      KeysOnlyGained(ids, x.exchange, p, nonce);
    }
  }

  lemma HearSettles(room: string, x: Inbox, m: Message, now: real)
    requires x.mail.listen == []
    ensures Settled(Hear(room, x, m, now))
  {
    var y := Flush(room, x, now);
    FlushSettles(room, x, now);
    if Defers(room, y.exchange, m) {
      FlushSettles(room, Arrive(room, y, m, now), now);
    }
  }

  /** Forgetting makes nothing readable. */
  lemma ForgottenSettles(x: Inbox, users: set<string>)
    requires Settled(x)
    ensures Settled(Forgotten(x, users))
  {
  }

  // Each of these is a series of steps.

  /** One state leads to another by steps. */
  ghost predicate Leads(ids: KeyIds, room: string, x: Inbox, y: Inbox) {
    exists events :: Run(ids, room, x, events) == y
  }

  lemma {:induction false} RunConcat(ids: KeyIds, room: string, x: Inbox, first: seq<Event>, second: seq<Event>)
    ensures Run(ids, room, x, first + second) == Run(ids, room, Run(ids, room, x, first), second)
  {
    if second == [] {
      assert first + second == first;
    } else {
      var last := |second| - 1;
      RunConcat(ids, room, x, first, second[..last]);
      assert (first + second)[..|first + second| - 1] == first + second[..last];
    }
  }

  lemma LeadsOn(ids: KeyIds, room: string, x: Inbox, y: Inbox, z: Inbox)
    requires Leads(ids, room, x, y) && Leads(ids, room, y, z)
    ensures Leads(ids, room, x, z)
  {
    var first :| Run(ids, room, x, first) == y;
    var second :| Run(ids, room, y, second) == z;
    RunConcat(ids, room, x, first, second);
  }

  lemma StepLeads(ids: KeyIds, room: string, x: Inbox, e: Event)
    ensures Leads(ids, room, x, Step(ids, room, x, e))
  {
    assert [e][..0] == [];
    assert Run(ids, room, x, [e]) == Step(ids, room, Run(ids, room, x, []), e);
  }

  lemma StandsStill(ids: KeyIds, room: string, x: Inbox)
    ensures Leads(ids, room, x, x)
  {
    assert Run(ids, room, x, []) == x;
  }

  lemma {:induction false} HandAllIsSteps(ids: KeyIds, room: string, x: Inbox, thread: Thread)
    ensures Leads(ids, room, x, HandAll(room, x, thread))
    decreases |Hand(x.mail, thread)|
  {
    if Hand(x.mail, thread) == [] {
      StandsStill(ids, room, x);
    } else {
      var next := HandOne(room, x, thread);
      StepLeads(ids, room, x, HandsOver(thread));
      HandAllIsSteps(ids, room, next, thread);
      LeadsOn(ids, room, x, next, HandAll(room, next, thread));
    }
  }

  lemma FlushIsSteps(ids: KeyIds, room: string, x: Inbox, now: real)
    ensures Leads(ids, room, x, Flush(room, x, now))
  {
    StepLeads(ids, room, x, Selects(Listen, now));
    HandAllIsSteps(ids, room, Choose(x, Listen, now), Listen);
    LeadsOn(ids, room, x, Choose(x, Listen, now), Flush(room, x, now));
  }

  lemma AbsorbIsSteps(ids: KeyIds, room: string, x: Inbox, p: KeyPacket, nonce: nat, now: real)
    ensures Leads(ids, room, x, Absorb(ids, room, x, p, nonce, now))
  {
    var taken := TakeKey(ids, x, p, nonce);
    StepLeads(ids, room, x, KeyArrives(p, nonce));
    if GainsKey(ids, x.exchange, p, nonce) {
      var flushed := Flush(room, taken, now);
      FlushIsSteps(ids, room, taken, now);
      LeadsOn(ids, room, x, taken, flushed);
      StepLeads(ids, room, flushed, Publishes);
      LeadsOn(ids, room, x, flushed, Publish(flushed));
    }
  }

  lemma ForgottenIsSteps(ids: KeyIds, room: string, x: Inbox, users: set<string>)
    ensures Leads(ids, room, x, Forgotten(x, users))
  {
    var seen := SeeRoster(x, users);
    StepLeads(ids, room, x, RosterArrives(users));
    StepLeads(ids, room, seen, Publishes);
    LeadsOn(ids, room, x, seen, Publish(seen));
  }

  lemma HearIsSteps(ids: KeyIds, room: string, x: Inbox, m: Message, now: real)
    ensures Leads(ids, room, x, Hear(room, x, m, now))
  {
    var flushed := Flush(room, x, now);
    var arrived := Arrive(room, flushed, m, now);
    FlushIsSteps(ids, room, x, now);
    StepLeads(ids, room, flushed, TextArrives(m, now));
    LeadsOn(ids, room, x, flushed, arrived);
    FlushIsSteps(ids, room, arrived, now);
    LeadsOn(ids, room, x, arrived, Flush(room, arrived, now));
  }
}
