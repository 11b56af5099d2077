/**
 From what somebody says to what somebody else is shown. The clients of the hostile network also read: any message
 whose ciphertext the network can send, under any name, scheme and number of times, now or when a held one is
 delivered at last.
*/
module EndToEnd {
  import opened Common
  import opened KeyAgreement
  import opened SessionKeys
  import opened KeyExchange
  import opened Messages
  import opened SeenMemory
  import opened Envelope
  import opened Readers
  import opened Protocol
  import opened Meetings

  datatype House = House(world: World, readers: map<nat, Reader>)

  /** `name` is the name the client goes by when it reads. */
  datatype Event = Net(step: Protocol.Step) | Reads(i: nat, name: string, m: Message)

  function ReaderOf(h: House, i: nat): Reader {
    if i in h.readers then h.readers[i] else NOTHING_READ
  }

  /** Everything about a message is the network's choice, but it cannot make up ciphertexts. */
  predicate Deliverable(know: set<Term>, m: Message) {
    m.content.Cipher? && m.content.token.Token? ==> Sendable(know, TextT(m.content.token.body))
  }

  function ReadBy(s: Setup, h: House, i: nat, name: string, m: Message): House {
    if i in h.world.clients && Deliverable(h.world.know, m)
    then h.(readers := h.readers[i := Read(s.normal(s.room(i)), ReaderOf(h, i), h.world.clients[i], name, m)])
    else h
  }

  function Happen(s: Setup, h: House, e: Event): House {
    match e
    case Net(step) => h.(world := Next(s, h.world, step))
    case Reads(i, name, m) => ReadBy(s, h, i, name, m)
  }

  function Course(s: Setup, events: seq<Event>): House {
    if events == [] then House(Begin(s), map[])
    else Happen(s, Course(s, events[..|events| - 1]), events[|events| - 1])
  }

  /** Honestly said in this room by `p`, who has the same password, and shown in the name recorded for `p`. */
  predicate Attested(s: Setup, said: set<(nat, nat, string)>, i: nat, e: Entry, p: nat) {
    && p in s.honest && s.room(p) == s.room(i) && s.password(p) == s.password(i)
    && e.original.content.Cipher? && e.original.content.token.Token?
    && var t := e.original.content.token;
    && t.body.Sealed? && t.body.payload.Text? && (p, t.nonce, t.body.payload.content) in said
    && e.shown.content == Clear(t.body.payload.content)
    && e.shown.user == e.original.user == NameOf(e.knew.keys, e.name, e.knew.peerUsers, Some(Point(p)))
    && e.shown.user != ""
  }

  ghost predicate ReadersOk(h: House) {
    forall i :: Remembers(ReaderOf(h, i))
  }

  /** What opens for a client whose password is safe was said, by the one whose name it carries. */
  lemma OpenedWasSaid(s: Setup, w: World, i: nat, e: Entry)
    requires Inv(s, w) && Secure(s, i) && e.knew == w.clients[i]
    requires Original(s.ids, s.normal(s.room(i)), e) && Deliverable(w.know, e.original)
    ensures exists p :: Attested(s, w.said, i, e, p)
  {
    var t := e.original.content.token;
    HolderIsInside(s, w, i, t.id);
    var p := e.knew.keys.holders[t.id].scalar;
    HolderHasOwnKey(s, w, i, p, t.id);
    SealedWasSaid(s, w, p, t.body);
    assert Attested(s, w.said, i, e, p);
  }

  lemma ClientsAreCoherent(s: Setup, w: World, i: nat)
    requires Inv(s, w) && i in w.clients
    ensures Coherent(s.ids, w.clients[i].keys)
  {
    assert ClientOk(s, w.know, w.accepted, i, w.clients[i]);
  }

  lemma ReadByKeeps(s: Setup, h: House, i: nat, name: string, m: Message)
    requires Inv(s, h.world) && ReadersOk(h)
    ensures ReadersOk(ReadBy(s, h, i, name, m))
  {
    var after := ReadBy(s, h, i, name, m);
    forall j ensures Remembers(ReaderOf(after, j)) {
      assert Remembers(ReaderOf(h, j));
      if j == i && after != h {
        ClientsAreCoherent(s, h.world, i);
        ReadRemembers(s.ids, s.normal(s.room(i)), ReaderOf(h, i), h.world.clients[i], name, m);
      }
    }
  }

  lemma {:induction false} EveryCourseKeeps(s: Setup, events: seq<Event>)
    ensures Inv(s, Course(s, events).world) && ReadersOk(Course(s, events))
  {
    if events == [] {
      BeginInv(s);
    } else {
      var before := Course(s, events[..|events| - 1]);
      EveryCourseKeeps(s, events[..|events| - 1]);
      match events[|events| - 1]
      case Net(step) =>
        NextKeeps(s, before.world, step);
        assert forall i :: ReaderOf(Course(s, events), i) == ReaderOf(before, i);
      case Reads(i, name, m) => ReadByKeeps(s, before, i, name, m);
    }
  }

  // Every message shown goes back to the moment at which it was read.

  /**
   Client `i` read at the `n`-th event what is recorded in `e`, with what it knew and what the network could send
   then.
  */
  ghost predicate ReadAt(s: Setup, events: seq<Event>, n: nat, i: nat, e: Entry) {
    && n < |events| && events[n] == Reads(i, e.name, e.original)
    && var h := Course(s, events[..n]);
    && i in h.world.clients && e.knew == h.world.clients[i] && Deliverable(h.world.know, e.original)
    && (Opened(e) ==> Original(s.ids, s.normal(s.room(i)), e))
  }

  lemma ReadInLonger(s: Setup, events: seq<Event>, m: nat, n: nat, i: nat, e: Entry)
    requires m <= |events| && ReadAt(s, events[..m], n, i, e)
    ensures ReadAt(s, events, n, i, e)
  {
    assert events[..m][..n] == events[..n];
  }

  /** An event adds to a log at most what it has just been read. */
  lemma EventExtends(s: Setup, h: House, e: Event, i: nat)
    requires Inv(s, h.world)
    ensures var before, after := ReaderOf(h, i), ReaderOf(Happen(s, h, e), i);
            || after.log == before.log
            || (&& e.Reads? && e.i == i && i in h.world.clients && Deliverable(h.world.know, e.m)
                && |after.log| == |before.log| + 1 && after.log[|before.log|].knew == h.world.clients[i]
                && after.log[|before.log|].name == e.name && after.log[|before.log|].original == e.m
                && Adds(s.ids, s.normal(s.room(i)), before, after, after.log[|before.log|]))
  {
    if e.Reads? && e.i == i && i in h.world.clients && Deliverable(h.world.know, e.m) {
      ClientsAreCoherent(s, h.world, i);
      ReadAdds(s.ids, s.normal(s.room(i)), ReaderOf(h, i), h.world.clients[i], e.name, e.m);
    }
  }

  lemma {:induction false} ShownWasRead(s: Setup, events: seq<Event>, i: nat, k: nat)
    requires k < |ReaderOf(Course(s, events), i).log|
    ensures exists n: nat :: ReadAt(s, events, n, i, ReaderOf(Course(s, events), i).log[k])
  {
    if events == [] {
    } else {
      var last := |events| - 1;
      var h := Course(s, events[..last]);
      EveryCourseKeeps(s, events[..last]);
      EventExtends(s, h, events[last], i);
      var e := ReaderOf(Course(s, events), i).log[k];
      if k < |ReaderOf(h, i).log| {
        ShownWasRead(s, events[..last], i, k);
        var n: nat :| ReadAt(s, events[..last], n, i, e);
        ReadInLonger(s, events, last, n, i, e);
      } else {
        assert ReadAt(s, events, last, i, e);
      }
    }
  }

  /**
   Origin, end to end. Whatever the adversary does and however many times: a scheme-marked text that is shown unmarked
   to somebody whose password did not leak was read at some moment before which an honest member of the same room with
   the same password had said it, word for word; and it carries the name that was recorded for that member then.
  */
  lemma ShownTextsWereSaid(s: Setup, events: seq<Event>, i: nat, k: nat)
    requires i in s.honest && s.password(i) !in s.leaked
    requires k < |ReaderOf(Course(s, events), i).log| && Opened(ReaderOf(Course(s, events), i).log[k])
    ensures exists n: nat, p :: && ReadAt(s, events, n, i, ReaderOf(Course(s, events), i).log[k])
                                && Attested(s, Course(s, events[..n]).world.said, i,
                                            ReaderOf(Course(s, events), i).log[k], p)
  {
    var e := ReaderOf(Course(s, events), i).log[k];
    ShownWasRead(s, events, i, k);
    var n: nat :| ReadAt(s, events, n, i, e);
    EveryCourseKeeps(s, events[..n]);
    OpenedWasSaid(s, Course(s, events[..n]).world, i, e);
  }

  /** No repeat, end to end, and even if passwords leaked: between two showings of one text lie 8192 others. */
  lemma NoTextIsRepeatedEarly(s: Setup, events: seq<Event>, i: nat, heads: seq<Head>, j: nat, k: nat)
    requires heads == Heads(ReaderOf(Course(s, events), i).log) && j < k < |heads| && heads[j] == heads[k]
    ensures k - j - 1 >= SEEN_MESSAGES_LIMIT
  {
    EveryCourseKeeps(s, events);
    assert Remembers(ReaderOf(Course(s, events), i));
  }

  // And what is said does get through.

  /** A text of `p` as its sender seals it, under the name the server puts on it. */
  function TextOf(s: Setup, p: nat, name: string, nonce: nat, content: string): Message {
    Message(name, Some(SCHEME), Cipher(Encrypt(s.ids, SenderKey(p), nonce, s.normal(s.room(p)), content)), None)
  }

  /** Client `i` has `p`'s key under its id, and knows `p` by this name. */
  predicate Knows(s: Setup, w: World, i: nat, p: nat, name: string) {
    && i in w.clients && Point(p) != Point(w.clients[i].keys.own) && name != ""
    && EntryOf(w.clients[i].keys, Point(p)).2 == Some(SenderKey(p))
    && Point(p) in w.clients[i].peerUsers && w.clients[i].peerUsers[Point(p)] == name
  }

  lemma KnownIsGenuine(s: Setup, c: Client, p: nat, name: string, username: string, nonce: nat, content: string)
    requires Coherent(s.ids, c.keys) && Point(p) != Point(c.keys.own) && name != ""
    requires EntryOf(c.keys, Point(p)).2 == Some(SenderKey(p))
    requires Point(p) in c.peerUsers && c.peerUsers[Point(p)] == name
    ensures Genuine(c.keys, s.normal(s.room(p)), username, c.peerUsers, TextOf(s, p, name, nonce, content))
  {
  }

  /**
   What a known peer said in the same room, and was not seen yet, is shown when it is read, word for word and
   unmarked.
  */
  lemma SaidTextIsShown(s: Setup, h: House, i: nat, p: nat, name: string, username: string, nonce: nat, content: string)
    requires Inv(s, h.world) && Knows(s, h.world, i, p, name) && s.room(p) == s.room(i)
    requires Deliverable(h.world.know, TextOf(s, p, name, nonce, content))
    requires Head(s.ids(SenderKey(p)), nonce) !in ReaderOf(h, i).seen
    ensures var before := ReaderOf(h, i).log;
            var m := TextOf(s, p, name, nonce, content);
            var log := ReaderOf(ReadBy(s, h, i, username, m), i).log;
            log == before + [Entry(h.world.clients[i], username, m, Message(name, Some(SCHEME), Clear(content), None))]
  {
    var c := h.world.clients[i];
    ClientsAreCoherent(s, h.world, i);
    KnownIsGenuine(s, c, p, name, username, nonce, content);
    GenuineIsRead(s.ids, s.normal(s.room(i)), ReaderOf(h, i), c, username, TextOf(s, p, name, nonce, content));
  }

  /** Two friends meet, one says something, the other reads it. */
  function Talk(s: Setup, w: World, i: nat, j: nat, nameOfI: string, nameOfJ: string, nonce: nat, textNonce: nat,
                content: string)
    : World
  {
    Next(s, Meet(s, w, i, j, nameOfI, nameOfJ, nonce), Says(j, textNonce, content))
  }

  lemma SayingSends(s: Setup, w: World, j: nat, name: string, nonce: nat, content: string)
    requires j in w.clients
    ensures Next(s, w, Says(j, nonce, content)).clients == w.clients
    ensures Deliverable(Next(s, w, Says(j, nonce, content)).know, TextOf(s, j, name, nonce, content))
  {
  }

  lemma TalkLeads(s: Setup, w: World, i: nat, j: nat, nameOfI: string, nameOfJ: string, nonce: nat, textNonce: nat,
                  content: string)
    requires Inv(s, w) && Friends(s, i, j) && nameOfJ != "" && !Taken(s, w, i, j)
    ensures var after := Talk(s, w, i, j, nameOfI, nameOfJ, nonce, textNonce, content);
            Inv(s, after) && Knows(s, after, i, j, nameOfJ)
            && Deliverable(after.know, TextOf(s, j, nameOfJ, textNonce, content))
  {
    var met := Meet(s, w, i, j, nameOfI, nameOfJ, nonce);
    MeetingKeys(s, w, i, j, nameOfI, nameOfJ, nonce, Start(Taken(s, w, i, j), Taken(s, w, j, i)));
    MeetKeeps(s, w, i, j, nameOfI, nameOfJ, nonce);
    HonestIsClient(s, met, i);
    HonestIsClient(s, met, j);
    SayingSends(s, met, j, nameOfJ, textNonce, content);
    NextKeeps(s, met, Says(j, textNonce, content));
  }

  /**
   Liveness, end to end. After any course of events, whatever the adversary did in it: when two honest clients of one
   room with one password take each other's offers and replies, and one of them says something new, the other is shown
   it on reading it, word for word and in that member's name, unless somebody else already held the id of the key.
  */
  lemma FriendsTalk(s: Setup, events: seq<Event>, i: nat, j: nat, nameOfI: string, nameOfJ: string, nonce: nat,
                    textNonce: nat,
                    content: string, username: string)
    requires Friends(s, i, j) && nameOfJ != "" && !Taken(s, Course(s, events).world, i, j)
    requires Head(s.ids(SenderKey(j)), textNonce) !in ReaderOf(Course(s, events), i).seen
    ensures var h := Course(s, events);
            var talked := h.(world := Talk(s, h.world, i, j, nameOfI, nameOfJ, nonce, textNonce, content));
            var m := TextOf(s, j, nameOfJ, textNonce, content);
            i in talked.world.clients
            && ReaderOf(ReadBy(s, talked, i, username, m), i).log == ReaderOf(h, i).log
                                                                     + [Entry(talked.world.clients[i], username, m,
                                                                              Message(nameOfJ, Some(SCHEME),
                                                                                      Clear(content), None))]
  {
    var h := Course(s, events);
    EveryCourseKeeps(s, events);
    TalkLeads(s, h.world, i, j, nameOfI, nameOfJ, nonce, textNonce, content);
    var talked := h.(world := Talk(s, h.world, i, j, nameOfI, nameOfJ, nonce, textNonce, content));
    SaidTextIsShown(s, talked, i, j, nameOfJ, username, textNonce, content);
  }
}
