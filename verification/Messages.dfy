/** Sealed text messages: an id that names the key, a nonce, and an ideal authenticated ciphertext. */
module Messages {
  import opened Common
  import opened KeyAgreement

  /** What is inside: a padded text, or bytes that are no padded text. */
  datatype Payload = Text(content: string) | Unreadable

  datatype Ciphertext = Sealed(key: SenderKey, nonce: nat, room: string, payload: Payload) | Noise(serial: nat)

  /** `Garbled` is not base64, or too short for an id, a nonce and a body. */
  datatype Token = Token(id: nat, nonce: nat, body: Ciphertext) | Garbled

  datatype DecryptionError = Undecryptable | UnknownKey

  /** The id and the nonce: what names a message. */
  datatype Head = Head(id: nat, nonce: nat)

  function HeadOf(t: Token): Option<Head> {
    if t.Garbled? then None else Some(Head(t.id, t.nonce))
  }

  function Encrypt(ids: SenderKey -> nat, key: SenderKey, nonce: nat, room: string, content: string): Token {
    Token(ids(key), nonce, Sealed(key, nonce, room, Text(content)))
  }

  /** Opens with the key held under the token's id, and only if that key, the nonce and the room all fit. */
  function Decrypt(byId: map<nat, SenderKey>, room: string, t: Token): Result<string, DecryptionError> {
    if t.Garbled? then Err(Undecryptable)
    else if t.id !in byId then Err(UnknownKey)
    else if t.body.Sealed? && t.body.key == byId[t.id] && t.body.nonce == t.nonce && t.body.room == room
            && t.body.payload.Text?
    then Ok(t.body.payload.content)
    else Err(Undecryptable)
  }

  /** A message opens in its own room for whoever holds its key, and nowhere else. */
  lemma DecryptEncrypt(ids: SenderKey -> nat, key: SenderKey, nonce: nat, room: string, content: string,
                       byId: map<nat, SenderKey>, room': string)
    ensures Decrypt(byId, room', Encrypt(ids, key, nonce, room, content))
         == if ids(key) !in byId then Err(UnknownKey)
            else if byId[ids(key)] == key && room' == room then Ok(content) else Err(Undecryptable)
  {
  }
}
