/**
 Any number of clients on a network that belongs to the adversary. Everything sent is known to it; it may deliver
 any known term to anyone in any order, any number of times, and build new terms from what it knows. It holds
 private scalars and sender keys of its own, and the passwords in `leaked`; it does not hold the private scalars
 of the honest clients. A reconnecting user is a new client: its keys are new.
*/
module Protocol {
  import opened Common
  import opened OrderedDict
  import opened KeyAgreement
  import opened SessionKeys
  import opened KeyExchange
  import opened Messages

  /** Client `i` has the private scalar `i` and the sender key with serial `i`. */
  datatype Setup = Setup(honest: set<nat>, room: nat -> string, password: nat -> string, leaked: set<string>,
                         normal: string -> string, ids: SenderKey -> nat)
  {
    function MasterOf(i: nat): MasterKey {
      Master(normal(room(i)), password(i))
    }

    function PskOf(i: nat): Psk {
      Psk(MasterOf(i), room(i))
    }
  }

  datatype Term =
    | ScalarT(scalar: nat)
    | PasswordT(password: string)
    | MasterT(master: MasterKey)
    | PskT(psk: Psk)
    | PairT(pair: PairKey)
    | KeyT(key: SenderKey)
    | TagT(tag: Tag)
    | WrapT(wrapped: Wrapped)
    | TextT(body: Ciphertext)

  /** `accepted`: who ever accepted whose offer. `said`: who ever sealed which text under which nonce. */
  datatype World = World(clients: map<nat, Client>, know: set<Term>, accepted: set<(nat, PublicKey)>,
                         said: set<(nat, nat, string)>)

  datatype Step =
      // The honest clients.
    | Offers(i: nat)
    | TakesOffer(i: nat, peer: PublicKey, tag: Option<Tag>, user: string, nonce: nat)
    | TakesKey(i: nat, peer: PublicKey, wrapped: Option<Wrapped>, to: Option<PublicKey>)
    | SeesRoster(i: nat, users: set<string>)
    | Says(i: nat, nonce: nat, content: string)
      // The adversary.
    | HasScalar(scalar: nat)
    | HasPassword(password: string)
    | MakesMaster(roomName: string, password: string)
    | MakesPsk(master: MasterKey, roomName: string)
    | MakesPair(scalar: nat, other: nat, psk: Psk)
    | MakesKey(key: SenderKey)
    | MakesTag(master: MasterKey, roomName: string, of: PublicKey)
    | MakesWrap(pair: PairKey, nonce: nat, secret: Secret)
    | OpensWrap(intercepted: Wrapped)
    | MakesText(key: SenderKey, nonce: nat, roomName: string, payload: Payload)

  predicate Sendable(know: set<Term>, t: Term) {
    match t
    case TagT(tag) => tag.WrongTag? || t in know
    case WrapT(wrapped) => wrapped.Scrap? || t in know
    case TextT(body) => body.Noise? || t in know
    case _ => false
  }

  /** What the adversary may add to its knowledge in one step. */
  function Derived(s: Setup, know: set<Term>, step: Step): Option<Term> {
    match step
    case HasScalar(scalar) => if scalar !in s.honest then Some(ScalarT(scalar)) else None
    case HasPassword(password) => if password in s.leaked then Some(PasswordT(password)) else None
    case MakesMaster(roomName, password) =>
      if PasswordT(password) in know then Some(MasterT(Master(roomName, password))) else None
    case MakesPsk(master, roomName) => if MasterT(master) in know then Some(PskT(Psk(master, roomName))) else None
    case MakesPair(scalar, other, psk) =>
      var pair := AgreePairKey(scalar, Point(other), psk);
      if ScalarT(scalar) in know && PskT(psk) in know && pair.Ok? then Some(PairT(pair.value)) else None
    case MakesKey(key) => if key.serial !in s.honest then Some(KeyT(key)) else None
    case MakesTag(master, roomName, of) =>
      if MasterT(master) in know then Some(TagT(OfferTag(master, roomName, of))) else None
    case MakesWrap(pair, nonce, secret) =>
      if PairT(pair) in know && (secret.Key? ==> KeyT(secret.key) in know)
      then Some(WrapT(Wrapped(pair, nonce, secret)))
      else None
    case OpensWrap(w) =>
      if w.Wrapped? && WrapT(w) in know && PairT(w.pair) in know && w.secret.Key? then Some(KeyT(w.secret.key))
      else None
    case MakesText(key, nonce, roomName, payload) =>
      if KeyT(key) in know then Some(TextT(Sealed(key, nonce, roomName, payload))) else None
    case _ => None
  }

  /** The client's own wrapped key goes back on the network when the offer holds. */
  function TakeOffer(s: Setup, w: World, i: nat, peer: PublicKey, tag: Option<Tag>, user: string, nonce: nat): World
    requires i in w.clients
  {
    var (after, reply) := HandleOffer(s.ids, w.clients[i], peer, tag, user, nonce);
    match reply
    case None => w.(clients := w.clients[i := after])
    case Some(wrap) => World(w.clients[i := after], w.know + {WrapT(wrap)}, w.accepted + {(i, peer)}, w.said)
  }

  /** The term a step puts within the adversary's reach: something sent, or something derived. */
  function Learnt(s: Setup, w: World, step: Step): Option<Term> {
    match step
    case Offers(i) => if i in w.clients then Some(TagT(OfferMac(Point(i), s.MasterOf(i), s.room(i)))) else None
    case Says(i, nonce, content) =>
      if i in w.clients then Some(TextT(Encrypt(s.ids, SenderKey(i), nonce, s.normal(s.room(i)), content).body))
      else None
    case _ => Derived(s, w.know, step)
  }

  function Said(w: World, step: Step): set<(nat, nat, string)> {
    if step.Says? then w.said + {(step.i, step.nonce, step.content)} else w.said
  }

  function Next(s: Setup, w: World, step: Step): World {
    match step
    case TakesOffer(i, peer, tag, user, nonce) =>
      if i !in w.clients || peer == Point(i) || (tag.Some? && !Sendable(w.know, TagT(tag.value))) then w
      else TakeOffer(s, w, i, peer, tag, user, nonce)
    case TakesKey(i, peer, wrapped, to) =>
      if i !in w.clients || peer == Point(i) || (wrapped.Some? && !Sendable(w.know, WrapT(wrapped.value))) then w
      else w.(clients := w.clients[i := HandleSenderKey(s.ids, w.clients[i], peer, wrapped, to)])
    case SeesRoster(i, users) =>
      if i !in w.clients then w else w.(clients := w.clients[i := ForgetAbsent(w.clients[i], users)])
    case _ =>
      var t := Learnt(s, w, step);
      if t.None? then w else w.(know := w.know + {t.value}, said := Said(w, step))
  }

  function Begin(s: Setup): World {
    World(map i | i in s.honest :: Start(Open(s.ids, s.room(i), s.MasterOf(i), i, SenderKey(i))), {}, {}, {})
  }

  function Run(s: Setup, steps: seq<Step>): World {
    if steps == [] then Begin(s) else Next(s, Run(s, steps[..|steps| - 1]), steps[|steps| - 1])
  }

  // What every run keeps.

  /** A wrap under a pair key of two honest clients holds one end's own key, made when that end accepted the other. */
  predicate FromOneEnd(s: Setup, accepted: set<(nat, PublicKey)>, pair: PairKey, secret: Secret) {
    && secret.Key?
    && var maker := secret.key.serial;
    && (maker == pair.shared.low || maker == pair.shared.high)
    && (maker, Point(if maker == pair.shared.low then pair.shared.high else pair.shared.low)) in accepted
    && pair.psk == s.PskOf(maker)
  }

  predicate BothHonest(s: Setup, pair: PairKey) {
    pair.shared.low in s.honest && pair.shared.high in s.honest
  }

  /** The key of an honest client whose password did not leak. */
  predicate Secure(s: Setup, i: nat) {
    i in s.honest && s.password(i) !in s.leaked
  }

  /** What the adversary may know. Everything it must not know, it cannot derive either. */
  predicate Allowed(s: Setup, accepted: set<(nat, PublicKey)>, said: set<(nat, nat, string)>, t: Term) {
    match t
    case ScalarT(scalar) => scalar !in s.honest
    case PasswordT(password) => password in s.leaked
    case MasterT(master) => master.password in s.leaked
    case PskT(psk) => psk.master.password in s.leaked
    case PairT(pair) => !BothHonest(s, pair) && pair.psk.master.password in s.leaked
    case KeyT(key) => !Secure(s, key.serial)
    case TagT(tag) =>
      tag.WrongTag? || tag.master.password in s.leaked
      || (tag.key.Point? && tag.key.scalar in s.honest && tag.master == s.MasterOf(tag.key.scalar)
          && tag.room == s.room(tag.key.scalar))
    case WrapT(wrapped) =>
      wrapped.Scrap?
      || (&& (BothHonest(s, wrapped.pair) ==> FromOneEnd(s, accepted, wrapped.pair, wrapped.secret))
          && (wrapped.secret.Key? && Secure(s, wrapped.secret.key.serial) ==> BothHonest(s, wrapped.pair)))
    case TextT(body) =>
      body.Noise?
      || (Secure(s, body.key.serial)
          ==> body.payload.Text? && (body.key.serial, body.nonce, body.payload.content) in said)
  }

  /** An honest peer's id names that peer's own key, and that peer accepted our offer in the same room. */
  predicate Trusted(s: Setup, accepted: set<(nat, PublicKey)>, i: nat, holder: PublicKey, key: SenderKey) {
    holder.Point? && holder.scalar in s.honest && holder.scalar != i
    ==> key == SenderKey(holder.scalar) && (holder.scalar, Point(i)) in accepted && s.PskOf(holder.scalar) == s.PskOf(i)
  }

  /**
   With a password that did not leak, only honest peers with the same password in the same room get past the offer.
  */
  predicate Inside(s: Setup, i: nat, peer: PublicKey) {
    Secure(s, i) ==> peer.Point? && peer.scalar in s.honest && s.PskOf(peer.scalar) == s.PskOf(i)
  }

  /** One client's key maps: its own constants, genuine holders, and only insiders past the offer. */
  ghost predicate KeysOk(s: Setup, accepted: set<(nat, PublicKey)>, i: nat, k: Keys) {
    match k
    case Keys(room, master, own, senderKey, pairs, byId, peerIds, holders) =>
      && Coherent(s.ids, k)
      && room == s.room(i) && master == s.MasterOf(i) && own == i && senderKey == SenderKey(i)
      && (forall id :: id in holders && id in byId ==> Trusted(s, accepted, i, holders[id], byId[id]))
      && (forall p :: p in pairs ==> Inside(s, i, p))
  }

  ghost predicate Overheard(know: set<Term>, pending: Dict<PublicKey, Wrapped>) {
    forall p :: p in pending.items ==> Sendable(know, WrapT(pending.items[p]))
  }

  ghost predicate ClientOk(s: Setup, know: set<Term>, accepted: set<(nat, PublicKey)>, i: nat, c: Client) {
    match c
    case Client(keys, _, _, pending) => Tidy(s.ids, c) && KeysOk(s, accepted, i, keys) && Overheard(know, pending)
  }

  ghost predicate KnowledgeOk(s: Setup, know: set<Term>, accepted: set<(nat, PublicKey)>,
                              said: set<(nat, nat, string)>) {
    forall t :: t in know ==> Allowed(s, accepted, said, t)
  }

  ghost predicate Inv(s: Setup, w: World) {
    match w
    case World(clients, know, accepted, said) =>
      && clients.Keys == s.honest
      && KnowledgeOk(s, know, accepted, said)
      && (forall i :: i in clients ==> ClientOk(s, know, accepted, i, clients[i]))
  }

  lemma BeginInv(s: Setup)
    ensures Inv(s, Begin(s))
  {
    forall i | i in s.honest ensures ClientOk(s, {}, {}, i, Begin(s).clients[i]) {
      OpenIsCoherent(s.ids, s.room(i), s.MasterOf(i), i, SenderKey(i));
    }
  }

  /** Knowing more, having accepted more and having said more takes nothing back. */
  lemma KnowledgeGrows(s: Setup, w: World, accepted: set<(nat, PublicKey)>, said: set<(nat, nat, string)>,
                       learnt: set<Term>)
    requires KnowledgeOk(s, w.know, w.accepted, w.said) && w.accepted <= accepted && w.said <= said
    requires KnowledgeOk(s, learnt, accepted, said)
    ensures KnowledgeOk(s, w.know + learnt, accepted, said)
  {
  }

  lemma ClientGrows(s: Setup, w: World, know: set<Term>, accepted: set<(nat, PublicKey)>, i: nat, c: Client)
    requires ClientOk(s, w.know, w.accepted, i, c) && w.know <= know && w.accepted <= accepted
    ensures ClientOk(s, know, accepted, i, c)
  {
  }

  /** Learning allowed terms, and further acceptances and texts, keep the invariant. */
  lemma WorldGrows(s: Setup, w: World, learnt: set<Term>, accepted: set<(nat, PublicKey)>,
                   said: set<(nat, nat, string)>)
    requires Inv(s, w) && w.accepted <= accepted && w.said <= said && KnowledgeOk(s, learnt, accepted, said)
    ensures Inv(s, World(w.clients, w.know + learnt, accepted, said))
  {
    KnowledgeGrows(s, w, accepted, said, learnt);
    forall i | i in w.clients ensures ClientOk(s, w.know + learnt, accepted, i, w.clients[i]) {
      ClientGrows(s, w, w.know + learnt, accepted, i, w.clients[i]);
    }
  }

  lemma ClientMoves(s: Setup, w: World, i: nat, c: Client)
    requires Inv(s, w) && i in w.clients && ClientOk(s, w.know, w.accepted, i, c)
    ensures Inv(s, w.(clients := w.clients[i := c]))
  {
    var clients := w.clients[i := c];
    forall j | j in clients ensures ClientOk(s, w.know, w.accepted, j, clients[j]) {
      if j != i {
        assert ClientOk(s, w.know, w.accepted, j, w.clients[j]);
      }
    }
  }

  lemma AdversaryKeeps(s: Setup, w: World, step: Step)
    requires KnowledgeOk(s, w.know, w.accepted, w.said) && Derived(s, w.know, step).Some?
    ensures Allowed(s, w.accepted, w.said, Derived(s, w.know, step).value)
  {
  }

  lemma SendableIsAllowed(s: Setup, w: World, t: Term)
    requires KnowledgeOk(s, w.know, w.accepted, w.said) && Sendable(w.know, t)
    ensures Allowed(s, w.accepted, w.said, t)
  {
  }

  /** A known wrap that opens under the pair key with an honest peer holds that peer's key, or ours reflected. */
  lemma KeyFromPeer(s: Setup, w: World, i: nat, peer: PublicKey, wrapped: Wrapped, k: Keys)
    requires i in s.honest && Allowed(s, w.accepted, w.said, WrapT(wrapped))
    requires Coherent(s.ids, k) && k.own == i && k.senderKey == SenderKey(i) && k.Psk() == s.PskOf(i)
    requires AcceptSenderKey(s.ids, k, peer, wrapped).Ok?
    ensures wrapped.Wrapped? && wrapped.secret.Key?
    ensures Trusted(s, w.accepted, i, peer, wrapped.secret.key)
  {
    assert AgreePairKey(i, peer, s.PskOf(i)) == Ok(k.pairs[peer]);
  }

  lemma TryKeepsKeys(s: Setup, w: World, i: nat, k: Keys, peer: PublicKey, wrapped: Wrapped)
    requires i in s.honest && Allowed(s, w.accepted, w.said, WrapT(wrapped))
    requires KeysOk(s, w.accepted, i, k)
    ensures KeysOk(s, w.accepted, i, TrySenderKey(s.ids, k, peer, wrapped))
  {
    TrySenderKeyCoherent(s.ids, k, peer, wrapped);
    if AcceptSenderKey(s.ids, k, peer, wrapped).Ok? {
      KeyFromPeer(s, w, i, peer, wrapped, k);
    }
  }

  lemma TakesKeyKeeps(s: Setup, w: World, i: nat, c: Client, peer: PublicKey, wrapped: Option<Wrapped>,
                      to: Option<PublicKey>)
    requires i in s.honest && KnowledgeOk(s, w.know, w.accepted, w.said) && ClientOk(s, w.know, w.accepted, i, c)
    requires wrapped.Some? ==> Sendable(w.know, WrapT(wrapped.value))
    ensures ClientOk(s, w.know, w.accepted, i, HandleSenderKey(s.ids, c, peer, wrapped, to))
  {
    HandleSenderKeyTidy(s.ids, c, peer, wrapped, to);
    if wrapped.Some? {
      SendableIsAllowed(s, w, WrapT(wrapped.value));
      TryKeepsKeys(s, w, i, c.keys, peer, wrapped.value);
      WaitValid(c.pending, peer, wrapped.value);
    }
  }

  lemma RosterKeeps(s: Setup, w: World, i: nat, c: Client, users: set<string>)
    requires ClientOk(s, w.know, w.accepted, i, c)
    ensures ClientOk(s, w.know, w.accepted, i, ForgetAbsent(c, users))
  {
    ForgetAbsentTidy(s.ids, c, users);
  }

  /** An accepted offer comes from inside when the password is safe, and the reply is fit to be seen. */
  lemma OfferIsInside(s: Setup, w: World, i: nat, k: Keys, peer: PublicKey, tag: Tag, nonce: nat)
    requires i in s.honest && KeysOk(s, w.accepted, i, k) && Allowed(s, w.accepted, w.said, TagT(tag))
    requires AcceptOffer(k, peer, tag, nonce).Ok?
    ensures Inside(s, i, peer) && peer != Point(i)
    ensures Allowed(s, w.accepted + {(i, peer)}, w.said, WrapT(AcceptOffer(k, peer, tag, nonce).value.1))
    ensures KeysOk(s, w.accepted, i, AcceptOffer(k, peer, tag, nonce).value.0)
  {
    AcceptOfferCoherent(s.ids, k, peer, tag, nonce);
  }

  lemma TakesOfferKeeps(s: Setup, w: World, i: nat, c: Client, peer: PublicKey, tag: Option<Tag>, user: string,
                        nonce: nat)
    requires i in s.honest && KnowledgeOk(s, w.know, w.accepted, w.said) && ClientOk(s, w.know, w.accepted, i, c)
    requires tag.Some? ==> Sendable(w.know, TagT(tag.value))
    ensures var (after, reply) := HandleOffer(s.ids, c, peer, tag, user, nonce);
            && ClientOk(s, w.know, w.accepted, i, after)
            && (reply.Some? ==> Allowed(s, w.accepted + {(i, peer)}, w.said, WrapT(reply.value)))
  {
    HandleOfferTidy(s.ids, c, peer, tag, user, nonce);
    if tag.Some? && AcceptOffer(c.keys, peer, tag.value, nonce).Ok? {
      SendableIsAllowed(s, w, TagT(tag.value));
      OfferIsInside(s, w, i, c.keys, peer, tag.value, nonce);
      if peer in c.pending.items {
        SendableIsAllowed(s, w, WrapT(c.pending.items[peer]));
        TryKeepsKeys(s, w, i, AcceptOffer(c.keys, peer, tag.value, nonce).value.0, peer, c.pending.items[peer]);
      }
    }
  }

  /** The reply, once the client has moved on, goes out and is known from then on. */
  lemma ReplyKeeps(s: Setup, w: World, i: nat, peer: PublicKey, reply: Wrapped)
    requires Inv(s, w) && Allowed(s, w.accepted + {(i, peer)}, w.said, WrapT(reply))
    ensures Inv(s, World(w.clients, w.know + {WrapT(reply)}, w.accepted + {(i, peer)}, w.said))
  {
    WorldGrows(s, w, {WrapT(reply)}, w.accepted + {(i, peer)}, w.said);
  }

  lemma OfferStepKeeps(s: Setup, w: World, i: nat, peer: PublicKey, tag: Option<Tag>, user: string, nonce: nat)
    requires Inv(s, w) && i in w.clients && (tag.Some? ==> Sendable(w.know, TagT(tag.value)))
    ensures Inv(s, TakeOffer(s, w, i, peer, tag, user, nonce))
  {
    TakesOfferKeeps(s, w, i, w.clients[i], peer, tag, user, nonce);
    var (after, reply) := HandleOffer(s.ids, w.clients[i], peer, tag, user, nonce);
    ClientMoves(s, w, i, after);
    if reply.Some? {
      ReplyKeeps(s, w.(clients := w.clients[i := after]), i, peer, reply.value);
    }
  }

  lemma KeyStepKeeps(s: Setup, w: World, i: nat, peer: PublicKey, wrapped: Option<Wrapped>, to: Option<PublicKey>)
    requires Inv(s, w)
    ensures Inv(s, Next(s, w, TakesKey(i, peer, wrapped, to)))
  {
    if i in w.clients && peer != Point(i) && (wrapped.Some? ==> Sendable(w.know, WrapT(wrapped.value))) {
      TakesKeyKeeps(s, w, i, w.clients[i], peer, wrapped, to);
      ClientMoves(s, w, i, HandleSenderKey(s.ids, w.clients[i], peer, wrapped, to));
    }
  }

  lemma RosterStepKeeps(s: Setup, w: World, i: nat, users: set<string>)
    requires Inv(s, w)
    ensures Inv(s, Next(s, w, SeesRoster(i, users)))
  {
    if i in w.clients {
      RosterKeeps(s, w, i, w.clients[i], users);
      ClientMoves(s, w, i, ForgetAbsent(w.clients[i], users));
    }
  }

  lemma LearntIsAllowed(s: Setup, w: World, step: Step)
    requires w.clients.Keys == s.honest && KnowledgeOk(s, w.know, w.accepted, w.said) && Learnt(s, w, step).Some?
    ensures Allowed(s, w.accepted, Said(w, step), Learnt(s, w, step).value)
  {
    if !step.Offers? && !step.Says? {
      AdversaryKeeps(s, w, step);
    }
  }

  lemma LearningStepKeeps(s: Setup, w: World, step: Step)
    requires Inv(s, w) && Learnt(s, w, step).Some?
    ensures Inv(s, w.(know := w.know + {Learnt(s, w, step).value}, said := Said(w, step)))
  {
    LearntIsAllowed(s, w, step);
    WorldGrows(s, w, {Learnt(s, w, step).value}, w.accepted, Said(w, step));
  }

  lemma OtherStepKeeps(s: Setup, w: World, step: Step)
    requires Inv(s, w) && !step.TakesOffer? && !step.TakesKey? && !step.SeesRoster?
    ensures Inv(s, Next(s, w, step))
  {
    if Learnt(s, w, step).Some? {
      LearningStepKeeps(s, w, step);
    }
  }

  lemma NextKeeps(s: Setup, w: World, step: Step)
    requires Inv(s, w)
    ensures Inv(s, Next(s, w, step))
  {
    match step
    case TakesOffer(i, peer, tag, user, nonce) =>
      if i in w.clients && (tag.Some? ==> Sendable(w.know, TagT(tag.value))) {
        OfferStepKeeps(s, w, i, peer, tag, user, nonce);
      }
    case TakesKey(i, peer, wrapped, to) => KeyStepKeeps(s, w, i, peer, wrapped, to);
    case SeesRoster(i, users) => RosterStepKeeps(s, w, i, users);
    case _ =>
      OtherStepKeeps(s, w, step);
  }

  lemma {:induction false} EveryRunKeeps(s: Setup, steps: seq<Step>)
    ensures Inv(s, Run(s, steps))
  {
    if steps == [] {
      BeginInv(s);
    } else {
      EveryRunKeeps(s, steps[..|steps| - 1]);
      NextKeeps(s, Run(s, steps[..|steps| - 1]), steps[|steps| - 1]);
    }
  }

  // What the invariant says about holders, names and texts.

  /** The key under the id of an honest holder, ourselves included, is that holder's own. */
  lemma HolderHasOwnKey(s: Setup, w: World, i: nat, p: nat, id: nat)
    requires Inv(s, w) && i in w.clients && p in s.honest
    requires id in w.clients[i].keys.holders && w.clients[i].keys.holders[id] == Point(p)
    ensures id in w.clients[i].keys.byId && w.clients[i].keys.byId[id] == SenderKey(p)
    ensures p != i ==> (p, Point(i)) in w.accepted && s.PskOf(p) == s.PskOf(i)
  {
    assert ClientOk(s, w.know, w.accepted, i, w.clients[i]);
    assert Trusted(s, w.accepted, i, w.clients[i].keys.holders[id], w.clients[i].keys.byId[id]);
  }

  /** With a password that did not leak, every holder is honest and in the room with the same password. */
  lemma HolderIsInside(s: Setup, w: World, i: nat, id: nat)
    requires Inv(s, w) && Secure(s, i) && id in w.clients[i].keys.holders
    ensures w.clients[i].keys.holders[id].Point?
    ensures var p := w.clients[i].keys.holders[id].scalar; p in s.honest && s.PskOf(p) == s.PskOf(i)
  {
    var k := w.clients[i].keys;
    assert ClientOk(s, w.know, w.accepted, i, w.clients[i]);
    if id != s.ids(k.senderKey) {
      assert k.holders[id] in k.peerIds;
      assert Inside(s, i, k.holders[id]);
    }
  }

  lemma SealedWasSaid(s: Setup, w: World, p: nat, body: Ciphertext)
    requires KnowledgeOk(s, w.know, w.accepted, w.said) && Secure(s, p)
    requires Sendable(w.know, TextT(body)) && body.Sealed? && body.key == SenderKey(p)
    ensures body.payload.Text? && (p, body.nonce, body.payload.content) in w.said
  {
    assert Allowed(s, w.accepted, w.said, TextT(body));
  }

  lemma SecretsAreUnknown(s: Setup, w: World, i: nat)
    requires KnowledgeOk(s, w.know, w.accepted, w.said) && Secure(s, i)
    ensures KeyT(SenderKey(i)) !in w.know
  {
    assert !Allowed(s, w.accepted, w.said, KeyT(SenderKey(i)));
  }

  // What holds after every run; `w` is the world the run leads to.

  /**
   Whatever the adversary does, leaked passwords included: if a client records an honest peer's public key as the
   holder of an id, the key under that id is that peer's own, the peer accepted this client's offer, and
   both wrote the same room name and the same password.
  */
  lemma HoldersAreGenuine(s: Setup, steps: seq<Step>, w: World, i: nat, p: nat, id: nat)
    requires w == Run(s, steps) && i in s.honest && p in s.honest && p != i && i in w.clients
    requires id in w.clients[i].keys.holders && w.clients[i].keys.holders[id] == Point(p)
    ensures id in w.clients[i].keys.byId && w.clients[i].keys.byId[id] == SenderKey(p)
    ensures (p, Point(i)) in w.accepted
    ensures s.room(p) == s.room(i) && s.password(p) == s.password(i)
  {
    EveryRunKeeps(s, steps);
    HolderHasOwnKey(s, w, i, p, id);
  }

  /** Somebody who is honestly in the room with the same password, took our offer, and last offered under this name. */
  predicate ProvedPassword(s: Setup, w: World, i: nat, name: string, p: nat) {
    && i in w.clients && p in s.honest && p != i && s.room(p) == s.room(i) && s.password(p) == s.password(i)
    && (p, Point(i)) in w.accepted
    && Point(p) in w.clients[i].peerUsers && w.clients[i].peerUsers[Point(p)] == name
  }

  /** With a password that did not leak, every name shown as verified belongs to somebody who proved it. */
  lemma VerifiedUsersProvedPassword(s: Setup, steps: seq<Step>, w: World, i: nat, name: string)
    requires w == Run(s, steps) && Secure(s, i) && i in w.clients && name in VerifiedUsers(w.clients[i])
    ensures exists p :: ProvedPassword(s, w, i, name, p)
  {
    EveryRunKeeps(s, steps);
    var c := w.clients[i];
    assert ClientOk(s, w.know, w.accepted, i, c);
    var peer :| peer in c.peerUsers && c.peerUsers[peer] == name && peer in c.keys.peerIds;
    var id := c.keys.peerIds[peer];
    assert id in c.keys.holders && c.keys.holders[id] == peer;
    HolderIsInside(s, w, i, id);
    assert AgreePairKey(i, peer, c.keys.Psk()).Ok?;
    HolderHasOwnKey(s, w, i, peer.scalar, id);
    assert ProvedPassword(s, w, i, name, peer.scalar);
  }

  /** A sender key stays secret as long as the room password does. */
  lemma SenderKeysStaySecret(s: Setup, steps: seq<Step>, i: nat)
    requires Secure(s, i)
    ensures KeyT(SenderKey(i)) !in Run(s, steps).know
  {
    EveryRunKeeps(s, steps);
    SecretsAreUnknown(s, Run(s, steps), i);
  }

  /**
   And then a text that opens under an honest holder's key is one that holder sealed, with that nonce, in this room.
  */
  lemma TextsAreGenuine(s: Setup, steps: seq<Step>, w: World, i: nat, p: nat, t: Token)
    requires w == Run(s, steps) && i in w.clients && Secure(s, p)
    requires t.Token? && Sendable(w.know, TextT(t.body))
    requires t.id in w.clients[i].keys.holders && w.clients[i].keys.holders[t.id] == Point(p)
    requires Decrypt(w.clients[i].keys.byId, s.normal(s.room(i)), t).Ok?
    ensures (p, t.nonce, Decrypt(w.clients[i].keys.byId, s.normal(s.room(i)), t).value) in w.said
  {
    EveryRunKeeps(s, steps);
    HolderHasOwnKey(s, w, i, p, t.id);
    SealedWasSaid(s, w, p, t.body);
  }
}
