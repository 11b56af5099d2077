/**
 The key agreement with ideal cryptography: tags, wraps and pair keys are terms that only the right key makes or
 opens. A public key is the point of its private scalar; other byte strings are of low order or of the wrong length.
*/
module KeyAgreement {
  import opened Common

  datatype SenderKey = SenderKey(serial: nat)

  datatype PublicKey = Point(scalar: nat) | LowOrder(serial: nat) | WrongLength(serial: nat)

  /** Argon2id of the password, salted with the normalised room name. */
  datatype MasterKey = Master(room: string, password: string)

  /** The pre-shared key: bound to the master key and to the room name as it is written. */
  datatype Psk = Psk(master: MasterKey, room: string)

  /** The X25519 secret of two scalars, section 6.1 of RFC 7748: the same from either side. */
  datatype Shared = Shared(low: nat, high: nat)

  datatype PairKey = PairKey(shared: Shared, salt: (PublicKey, PublicKey), psk: Psk)

  datatype Tag = OfferTag(master: MasterKey, room: string, key: PublicKey) | WrongTag(serial: nat)

  /** What a wrap may hold: a sender key, or something of another length. */
  datatype Secret = Key(key: SenderKey) | Other(serial: nat)

  datatype Wrapped = Wrapped(pair: PairKey, nonce: nat, secret: Secret) | Scrap(serial: nat)

  datatype Failure = OfferError | SenderKeyError | UnknownSenderKey

  function OfferMac(key: PublicKey, master: MasterKey, room: string): Tag {
    OfferTag(master, room, key)
  }

  predicate VerifiesOffer(key: PublicKey, tag: Tag, master: MasterKey, room: string) {
    !key.WrongLength? && tag == OfferMac(key, master, room)
  }

  function Exchange(own: nat, peer: nat): Shared {
    if own <= peer then Shared(own, peer) else Shared(peer, own)
  }

  function SortedKeys(own: nat, peer: nat): (PublicKey, PublicKey) {
    if own <= peer then (Point(own), Point(peer)) else (Point(peer), Point(own))
  }

  /** Refuses a malformed key, our own key and a key without a usable shared secret. */
  function AgreePairKey(own: nat, peer: PublicKey, psk: Psk): Result<PairKey, Failure> {
    match peer
    case WrongLength(_) => Err(OfferError)
    case LowOrder(_) => Err(OfferError)
    case Point(scalar) =>
      if scalar == own then Err(OfferError)
      else Ok(PairKey(Exchange(own, scalar), SortedKeys(own, scalar), psk))
  }

  function Wrap(pair: PairKey, nonce: nat, key: SenderKey): Wrapped {
    Wrapped(pair, nonce, Key(key))
  }

  function Unwrap(pair: PairKey, w: Wrapped): Result<SenderKey, Failure> {
    if w.Wrapped? && w.pair == pair && w.secret.Key? then Ok(w.secret.key) else Err(SenderKeyError)
  }

  /** Both sides reach the same pair key, and only the same two scalars and the same pre-shared key reach it. */
  lemma PairKeysAgree(a: nat, b: nat, psk: Psk, c: nat, d: nat, psk': Psk)
    requires a != b && c != d
    ensures AgreePairKey(a, Point(b), psk) == AgreePairKey(c, Point(d), psk')
       <==> psk == psk' && ((a == c && b == d) || (a == d && b == c))
  {
  }

  /** A wrap opens for the peer it was made for, and for nobody who agreed on another key. */
  lemma WrapOpensForPeer(a: nat, b: nat, psk: Psk, nonce: nat, key: SenderKey, c: nat, d: nat, psk': Psk)
    requires a != b && c != d
    ensures Unwrap(AgreePairKey(c, Point(d), psk').value, Wrap(AgreePairKey(a, Point(b), psk).value, nonce, key))
         == if psk == psk' && ((a == c && b == d) || (a == d && b == c)) then Ok(key) else Err(SenderKeyError)
  {
    PairKeysAgree(a, b, psk, c, d, psk');
  }
}
