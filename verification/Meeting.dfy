/**
 Two honest clients meet: whatever went on before, each other's offers and replies are enough for both to be keyed.
*/
module Meetings {
  import opened Common
  import opened OrderedDict
  import opened KeyAgreement
  import opened SessionKeys
  import opened KeyExchange
  import opened Protocol

  function TagOf(s: Setup, i: nat): Tag {
    OfferMac(Point(i), s.MasterOf(i), s.room(i))
  }

  /** What client `i` sends in reply to an offer of `j`. */
  function ReplyOf(s: Setup, i: nat, j: nat, nonce: nat): Wrapped {
    var pair := AgreePairKey(i, Point(j), s.PskOf(i));
    if pair.Ok? then Wrap(pair.value, nonce, SenderKey(i)) else Scrap(0)
  }

  /** Two different honest clients of one room with one password. */
  predicate Friends(s: Setup, i: nat, j: nat) {
    i in s.honest && j in s.honest && i != j && s.room(i) == s.room(j) && s.password(i) == s.password(j)
  }

  /** What an honest client is from beginning to end. */
  ghost predicate IsClient(s: Setup, c: Client, i: nat) {
    && Tidy(s.ids, c) && c.keys.own == i && c.keys.room == s.room(i) && c.keys.master == s.MasterOf(i)
    && c.keys.senderKey == SenderKey(i)
  }

  /** Somebody other than `j` holds, at client `i`, the id of `j`'s key: the ids collide. */
  predicate Taken(s: Setup, w: World, i: nat, j: nat) {
    && i in w.clients && s.ids(SenderKey(j)) in w.clients[i].keys.holders
    && w.clients[i].keys.holders[s.ids(SenderKey(j))] != Point(j)
  }

  predicate Paired(w: World, i: nat, j: nat, name: string) {
    && i in w.clients && Point(j) in w.clients[i].keys.pairs
    && Point(j) in w.clients[i].peerUsers && w.clients[i].peerUsers[Point(j)] == name
  }

  /** Client `i` has exactly `j`'s own key for `j`, and shows the name as verified. */
  predicate Keyed(w: World, i: nat, j: nat, name: string) {
    && i in w.clients && EntryOf(w.clients[i].keys, Point(j)).2 == Some(SenderKey(j))
    && Point(j) in w.clients[i].peerUsers && w.clients[i].peerUsers[Point(j)] == name
    && (name != "" ==> name in VerifiedUsers(w.clients[i]))
  }

  lemma HonestIsClient(s: Setup, w: World, i: nat)
    requires Inv(s, w) && i in s.honest
    ensures i in w.clients && IsClient(s, w.clients[i], i)
  {
    assert ClientOk(s, w.know, w.accepted, i, w.clients[i]);
  }

  lemma OfferIsSent(s: Setup, w: World, i: nat)
    requires i in w.clients
    ensures Next(s, w, Offers(i)) == w.(know := w.know + {TagT(TagOf(s, i))}, said := Next(s, w, Offers(i)).said)
  {
  }

  /** Taking in a peer's packets, valid or not, leaves everybody else's place among the holders alone. */
  lemma TryKeepsOthers(ids: KeyIds, k: Keys, peer: PublicKey, wrapped: Wrapped, id: nat)
    requires Coherent(ids, k) && peer != Point(k.own)
    ensures var after := TrySenderKey(ids, k, peer, wrapped);
            (id in after.holders && after.holders[id] != peer) <==> (id in k.holders && k.holders[id] != peer)
  {
  }

  lemma OfferKeepsOthers(ids: KeyIds, c: Client, peer: PublicKey, tag: Tag, user: string, nonce: nat, id: nat)
    requires Tidy(ids, c)
    ensures var after := HandleOffer(ids, c, peer, Some(tag), user, nonce).0.keys;
            (id in after.holders && after.holders[id] != peer) <==> (id in c.keys.holders && c.keys.holders[id] != peer)
  {
    var r := AcceptOffer(c.keys, peer, tag, nonce);
    if r.Ok? {
      AcceptOfferCoherent(ids, c.keys, peer, tag, nonce);
      if peer in c.pending.items {
        TryKeepsOthers(ids, r.value.0, peer, c.pending.items[peer], id);
      }
    }
  }

  /** A friend's offer is answered, and pairs the friend. */
  lemma ClientTakesOffer(s: Setup, c: Client, i: nat, j: nat, name: string, nonce: nat)
    requires IsClient(s, c, i) && Friends(s, i, j)
    ensures var (after, reply) := HandleOffer(s.ids, c, Point(j), Some(TagOf(s, j)), name, nonce);
            && reply == Some(ReplyOf(s, i, j, nonce))
            && Point(j) in after.keys.pairs && after.peerUsers == c.peerUsers[Point(j) := name]
  {
    ValidOfferPairs(s.ids, c, KeyOffer(Some(Point(j)), Some(TagOf(s, j)), name), nonce);
  }

  lemma OfferIsTaken(s: Setup, w: World, i: nat, j: nat, name: string, nonce: nat)
    requires i in w.clients && IsClient(s, w.clients[i], i) && Friends(s, i, j) && TagT(TagOf(s, j)) in w.know
    ensures var after := Next(s, w, TakesOffer(i, Point(j), Some(TagOf(s, j)), name, nonce));
            && i in after.clients && after.clients == w.clients[i := after.clients[i]]
            && after.know == w.know + {WrapT(ReplyOf(s, i, j, nonce))}
            && Paired(after, i, j, name) && (Taken(s, after, i, j) <==> Taken(s, w, i, j))
  {
    ClientTakesOffer(s, w.clients[i], i, j, name, nonce);
    OfferKeepsOthers(s.ids, w.clients[i], Point(j), TagOf(s, j), name, nonce, s.ids(SenderKey(j)));
    assert Next(s, w, TakesOffer(i, Point(j), Some(TagOf(s, j)), name, nonce))
        == TakeOffer(s, w, i, Point(j), Some(TagOf(s, j)), name, nonce);
  }

  /** A friend's key, once the friend is paired, is taken unless its id is. */
  lemma ClientTakesKey(s: Setup, c: Client, i: nat, j: nat, nonce: nat)
    requires IsClient(s, c, i) && Friends(s, i, j) && Point(j) in c.keys.pairs
    requires !(s.ids(SenderKey(j)) in c.keys.holders && c.keys.holders[s.ids(SenderKey(j))] != Point(j))
    ensures var after := HandleSenderKey(s.ids, c, Point(j), Some(ReplyOf(s, j, i, nonce)), Some(Point(i)));
            && EntryOf(after.keys, Point(j)).2 == Some(SenderKey(j)) && after.peerUsers == c.peerUsers
            && Point(j) in after.keys.peerIds
  {
    PairKeysAgree(i, j, s.PskOf(i), j, i, s.PskOf(j));
    AcceptSenderKeyTouchesOne(s.ids, c.keys, Point(j), ReplyOf(s, j, i, nonce), Point(j));
  }

  lemma KeyIsTaken(s: Setup, w: World, i: nat, j: nat, name: string, nonce: nat)
    requires i in w.clients && IsClient(s, w.clients[i], i) && Friends(s, i, j) && Paired(w, i, j, name)
    requires WrapT(ReplyOf(s, j, i, nonce)) in w.know
    ensures var after := Next(s, w, TakesKey(i, Point(j), Some(ReplyOf(s, j, i, nonce)), Some(Point(i))));
            && i in after.clients && after == w.(clients := w.clients[i := after.clients[i]])
            && (Keyed(after, i, j, name) || Taken(s, w, i, j))
  {
    var c := HandleSenderKey(s.ids, w.clients[i], Point(j), Some(ReplyOf(s, j, i, nonce)), Some(Point(i)));
    assert Next(s, w, TakesKey(i, Point(j), Some(ReplyOf(s, j, i, nonce)), Some(Point(i))))
        == w.(clients := w.clients[i := c]);
    if !Taken(s, w, i, j) {
      ClientTakesKey(s, w.clients[i], i, j, nonce);
      assert c.peerUsers[Point(j)] == name;
    }
  }

  // The six steps, each on top of any run that has come so far.

  /** How things stand before the meeting: who already holds the two ids. */
  datatype Start = Start(takenAtI: bool, takenAtJ: bool)

  ghost predicate Since(s: Setup, w: World, i: nat, j: nat, start: Start) {
    Inv(s, w) && Taken(s, w, i, j) == start.takenAtI && Taken(s, w, j, i) == start.takenAtJ
  }

  ghost predicate BothOffered(s: Setup, w: World, i: nat, j: nat, start: Start) {
    Since(s, w, i, j, start) && TagT(TagOf(s, i)) in w.know && TagT(TagOf(s, j)) in w.know
  }

  /** `i` has answered `j`'s offer. */
  ghost predicate OneAnswered(s: Setup, w: World, i: nat, j: nat, name: string, nonce: nat, start: Start) {
    Since(s, w, i, j, start) && TagT(TagOf(s, i)) in w.know && Paired(w, i, j, name)
    && WrapT(ReplyOf(s, i, j, nonce)) in w.know
  }

  ghost predicate BothAnswered(s: Setup, w: World, i: nat, j: nat, nameOfI: string, nameOfJ: string, nonce: nat,
                               start: Start) {
    && Since(s, w, i, j, start) && Paired(w, i, j, nameOfJ) && Paired(w, j, i, nameOfI)
    && WrapT(ReplyOf(s, i, j, nonce)) in w.know && WrapT(ReplyOf(s, j, i, nonce)) in w.know
  }

  /** `i` has `j`'s key. */
  ghost predicate OneKeyed(s: Setup, w: World, i: nat, j: nat, nameOfI: string, nameOfJ: string, nonce: nat,
                           start: Start) {
    && Inv(s, w) && Taken(s, w, j, i) == start.takenAtJ && (Keyed(w, i, j, nameOfJ) || start.takenAtI)
    && Paired(w, j, i, nameOfI) && WrapT(ReplyOf(s, i, j, nonce)) in w.know
  }

  ghost predicate BothKeyed(w: World, i: nat, j: nat, nameOfI: string, nameOfJ: string, start: Start) {
    (Keyed(w, i, j, nameOfJ) || start.takenAtI) && (Keyed(w, j, i, nameOfI) || start.takenAtJ)
  }

  /** What happens to another client does not matter. */
  lemma StaysKeyed(w: World, i: nat, j: nat, c: Client, name: string)
    requires Keyed(w, i, j, name) && i != j
    ensures Keyed(w.(clients := w.clients[j := c]), i, j, name)
  {
  }

  lemma OffersLead(s: Setup, w: World, i: nat, j: nat, start: Start)
    requires Since(s, w, i, j, start) && Friends(s, i, j)
    ensures BothOffered(s, Next(s, Next(s, w, Offers(i)), Offers(j)), i, j, start)
  {
    var one := Next(s, w, Offers(i));
    NextKeeps(s, w, Offers(i));
    NextKeeps(s, one, Offers(j));
    HonestIsClient(s, w, i);
    OfferIsSent(s, w, i);
    HonestIsClient(s, one, j);
    OfferIsSent(s, one, j);
  }

  lemma FirstAnswerLeads(s: Setup, w: World, i: nat, j: nat, name: string, nonce: nat, start: Start)
    requires BothOffered(s, w, i, j, start) && Friends(s, i, j)
    ensures OneAnswered(s, Next(s, w, TakesOffer(i, Point(j), Some(TagOf(s, j)), name, nonce)), i, j, name, nonce,
                        start)
  {
    NextKeeps(s, w, TakesOffer(i, Point(j), Some(TagOf(s, j)), name, nonce));
    HonestIsClient(s, w, i);
    OfferIsTaken(s, w, i, j, name, nonce);
  }

  lemma SecondAnswerLeads(s: Setup, w: World, i: nat, j: nat, nameOfI: string, nameOfJ: string, nonce: nat,
                          start: Start)
    requires OneAnswered(s, w, i, j, nameOfJ, nonce, start) && Friends(s, i, j)
    ensures BothAnswered(s, Next(s, w, TakesOffer(j, Point(i), Some(TagOf(s, i)), nameOfI, nonce)), i, j, nameOfI,
                         nameOfJ,
                         nonce, start)
  {
    NextKeeps(s, w, TakesOffer(j, Point(i), Some(TagOf(s, i)), nameOfI, nonce));
    HonestIsClient(s, w, j);
    OfferIsTaken(s, w, j, i, nameOfI, nonce);
  }

  lemma FirstKeyLeads(s: Setup, w: World, i: nat, j: nat, nameOfI: string, nameOfJ: string, nonce: nat, start: Start)
    requires BothAnswered(s, w, i, j, nameOfI, nameOfJ, nonce, start) && Friends(s, i, j)
    ensures OneKeyed(s, Next(s, w, TakesKey(i, Point(j), Some(ReplyOf(s, j, i, nonce)), Some(Point(i)))), i, j, nameOfI,
                     nameOfJ, nonce, start)
  {
    NextKeeps(s, w, TakesKey(i, Point(j), Some(ReplyOf(s, j, i, nonce)), Some(Point(i))));
    HonestIsClient(s, w, i);
    KeyIsTaken(s, w, i, j, nameOfJ, nonce);
  }

  lemma SecondKeyLeads(s: Setup, w: World, i: nat, j: nat, nameOfI: string, nameOfJ: string, nonce: nat, start: Start)
    requires OneKeyed(s, w, i, j, nameOfI, nameOfJ, nonce, start) && Friends(s, i, j)
    ensures BothKeyed(Next(s, w, TakesKey(j, Point(i), Some(ReplyOf(s, i, j, nonce)), Some(Point(j)))), i, j, nameOfI,
                      nameOfJ, start)
  {
    var after := Next(s, w, TakesKey(j, Point(i), Some(ReplyOf(s, i, j, nonce)), Some(Point(j))));
    HonestIsClient(s, w, j);
    KeyIsTaken(s, w, j, i, nameOfI, nonce);
    if Keyed(w, i, j, nameOfJ) {
      StaysKeyed(w, i, j, after.clients[j], nameOfJ);
    }
  }

  /**
   A run, then both offers, then each other's offers taken, then each other's replies. The server puts the names on.
  */
  function WithMeeting(s: Setup, steps: seq<Step>, i: nat, j: nat, nameOfI: string, nameOfJ: string,
                       nonce: nat): seq<Step> {
    steps + [Offers(i)] + [Offers(j)]
    + [TakesOffer(i, Point(j), Some(TagOf(s, j)), nameOfJ, nonce)]
    + [TakesOffer(j, Point(i), Some(TagOf(s, i)), nameOfI, nonce)]
    + [TakesKey(i, Point(j), Some(ReplyOf(s, j, i, nonce)), Some(Point(i)))]
    + [TakesKey(j, Point(i), Some(ReplyOf(s, i, j, nonce)), Some(Point(j)))]
  }

  lemma RunOneMore(s: Setup, steps: seq<Step>, step: Step)
    ensures Run(s, steps + [step]) == Next(s, Run(s, steps), step)
  {
    assert (steps + [step])[..|steps|] == steps;
  }

  function Meet(s: Setup, w: World, i: nat, j: nat, nameOfI: string, nameOfJ: string, nonce: nat): World {
    var two := Next(s, Next(s, w, Offers(i)), Offers(j));
    var three := Next(s, two, TakesOffer(i, Point(j), Some(TagOf(s, j)), nameOfJ, nonce));
    var four := Next(s, three, TakesOffer(j, Point(i), Some(TagOf(s, i)), nameOfI, nonce));
    var five := Next(s, four, TakesKey(i, Point(j), Some(ReplyOf(s, j, i, nonce)), Some(Point(i))));
    Next(s, five, TakesKey(j, Point(i), Some(ReplyOf(s, i, j, nonce)), Some(Point(j))))
  }

  lemma RunWithMeeting(s: Setup, steps: seq<Step>, i: nat, j: nat, nameOfI: string, nameOfJ: string, nonce: nat)
    ensures Run(s, WithMeeting(s, steps, i, j, nameOfI, nameOfJ, nonce))
         == Meet(s, Run(s, steps), i, j, nameOfI, nameOfJ, nonce)
  {
    var one := steps + [Offers(i)];
    var two := one + [Offers(j)];
    var three := two + [TakesOffer(i, Point(j), Some(TagOf(s, j)), nameOfJ, nonce)];
    var four := three + [TakesOffer(j, Point(i), Some(TagOf(s, i)), nameOfI, nonce)];
    var five := four + [TakesKey(i, Point(j), Some(ReplyOf(s, j, i, nonce)), Some(Point(i)))];
    RunOneMore(s, steps, Offers(i));
    RunOneMore(s, one, Offers(j));
    RunOneMore(s, two, TakesOffer(i, Point(j), Some(TagOf(s, j)), nameOfJ, nonce));
    RunOneMore(s, three, TakesOffer(j, Point(i), Some(TagOf(s, i)), nameOfI, nonce));
    RunOneMore(s, four, TakesKey(i, Point(j), Some(ReplyOf(s, j, i, nonce)), Some(Point(i))));
    RunOneMore(s, five, TakesKey(j, Point(i), Some(ReplyOf(s, i, j, nonce)), Some(Point(j))));
  }

  lemma MeetKeeps(s: Setup, w: World, i: nat, j: nat, nameOfI: string, nameOfJ: string, nonce: nat)
    requires Inv(s, w)
    ensures Inv(s, Meet(s, w, i, j, nameOfI, nameOfJ, nonce))
  {
    var one := Next(s, w, Offers(i));
    var two := Next(s, one, Offers(j));
    var three := Next(s, two, TakesOffer(i, Point(j), Some(TagOf(s, j)), nameOfJ, nonce));
    var four := Next(s, three, TakesOffer(j, Point(i), Some(TagOf(s, i)), nameOfI, nonce));
    var five := Next(s, four, TakesKey(i, Point(j), Some(ReplyOf(s, j, i, nonce)), Some(Point(i))));
    NextKeeps(s, w, Offers(i));
    NextKeeps(s, one, Offers(j));
    NextKeeps(s, two, TakesOffer(i, Point(j), Some(TagOf(s, j)), nameOfJ, nonce));
    NextKeeps(s, three, TakesOffer(j, Point(i), Some(TagOf(s, i)), nameOfI, nonce));
    NextKeeps(s, four, TakesKey(i, Point(j), Some(ReplyOf(s, j, i, nonce)), Some(Point(i))));
    NextKeeps(s, five, TakesKey(j, Point(i), Some(ReplyOf(s, i, j, nonce)), Some(Point(j))));
  }

  lemma MeetingKeys(s: Setup, w: World, i: nat, j: nat, nameOfI: string, nameOfJ: string, nonce: nat, start: Start)
    requires Since(s, w, i, j, start) && Friends(s, i, j)
    ensures BothKeyed(Meet(s, w, i, j, nameOfI, nameOfJ, nonce), i, j, nameOfI, nameOfJ, start)
  {
    var two := Next(s, Next(s, w, Offers(i)), Offers(j));
    var three := Next(s, two, TakesOffer(i, Point(j), Some(TagOf(s, j)), nameOfJ, nonce));
    var four := Next(s, three, TakesOffer(j, Point(i), Some(TagOf(s, i)), nameOfI, nonce));
    var five := Next(s, four, TakesKey(i, Point(j), Some(ReplyOf(s, j, i, nonce)), Some(Point(i))));
    OffersLead(s, w, i, j, start);
    FirstAnswerLeads(s, two, i, j, nameOfJ, nonce, start);
    SecondAnswerLeads(s, three, i, j, nameOfI, nameOfJ, nonce, start);
    FirstKeyLeads(s, four, i, j, nameOfI, nameOfJ, nonce, start);
    SecondKeyLeads(s, five, i, j, nameOfI, nameOfJ, nonce, start);
  }

  /**
   Liveness. After any run at all, whatever the adversary did in it: once two honest clients of one room with one
   password have taken each other's offers and then each other's replies, each has the other's own key and shows the
   other's name as verified, unless somebody else already held the id of that key.
  */
  lemma FriendsMeet(s: Setup, steps: seq<Step>, i: nat, j: nat, nameOfI: string, nameOfJ: string, nonce: nat)
    requires Friends(s, i, j)
    ensures var after := Run(s, WithMeeting(s, steps, i, j, nameOfI, nameOfJ, nonce));
            && (Keyed(after, i, j, nameOfJ) || Taken(s, Run(s, steps), i, j))
            && (Keyed(after, j, i, nameOfI) || Taken(s, Run(s, steps), j, i))
  {
    var w := Run(s, steps);
    EveryRunKeeps(s, steps);
    RunWithMeeting(s, steps, i, j, nameOfI, nameOfJ, nonce);
    MeetingKeys(s, w, i, j, nameOfI, nameOfJ, nonce, Start(Taken(s, w, i, j), Taken(s, w, j, i)));
  }
}
