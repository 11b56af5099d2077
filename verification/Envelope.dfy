/** The memory of messages already shown: the most recent ones, oldest first. */
module SeenMemory {
  import opened Common
  import opened Messages

  const SEEN_MESSAGES_LIMIT: nat := 8192

  function Remember(seen: seq<Head>, head: Head): seq<Head> {
    var longer := seen + [head];
    if |longer| > SEEN_MESSAGES_LIMIT then longer[1..] else longer
  }

  /** The memory after a series of messages, and those of them that were shown. */
  function Recall(calls: seq<Head>): (seq<Head>, seq<Head>) {
    if calls == [] then ([], [])
    else
      var (seen, shown) := Recall(calls[..|calls| - 1]);
      var head := calls[|calls| - 1];
      if head in seen then (seen, shown) else (Remember(seen, head), shown + [head])
  }

  /** Equal entries lie more than `limit` apart. */
  ghost predicate Spaced(s: seq<Head>, limit: nat) {
    forall i, j :: 0 <= i < j < |s| && s[i] == s[j] ==> j - i > limit
  }

  lemma RememberIsSuffix(shown: seq<Head>, head: Head)
    requires Spaced(shown, SEEN_MESSAGES_LIMIT)
    requires head !in Suffix(shown, SEEN_MESSAGES_LIMIT)
    ensures Remember(Suffix(shown, SEEN_MESSAGES_LIMIT), head) == Suffix(shown + [head], SEEN_MESSAGES_LIMIT)
    ensures Spaced(shown + [head], SEEN_MESSAGES_LIMIT)
  {
    var recent := Suffix(shown, SEEN_MESSAGES_LIMIT);
    forall i | |shown| - |recent| <= i < |shown| ensures shown[i] != head {
      assert recent[i - (|shown| - |recent|)] == shown[i];
    }
  }

  /**
   The memory is exactly the most recent shown messages, and a message is shown a second time only after at
   least as many others as the memory holds.
  */
  lemma {:induction false} NoEarlyRepeat(calls: seq<Head>)
    ensures var (seen, shown) := Recall(calls);
            && seen == Suffix(shown, SEEN_MESSAGES_LIMIT)
            && |seen| <= SEEN_MESSAGES_LIMIT
            && Spaced(shown, SEEN_MESSAGES_LIMIT)
  {
    if calls == [] {
    } else {
      var before := calls[..|calls| - 1];
      NoEarlyRepeat(before);
      if calls[|calls| - 1] !in Recall(before).0 {
        RememberIsSuffix(Recall(before).1, calls[|calls| - 1]);
      }
    }
  }
}

/** A text message as the server delivers it, and what the client makes of it. */
module Envelope {
  import opened Common
  import opened KeyAgreement
  import opened SessionKeys
  import opened Messages
  import opened SeenMemory

  const SCHEME: string := "aesgcm-x25519-v3"
  const PLACEHOLDER: string := "[could not decrypt - different room password]"

  datatype Reason = DifferentPassword | DifferentScheme | DifferentSender

  /** `Clear` is text that is no token; `NotText` is a content field of another type. */
  datatype Content = Cipher(token: Token) | Clear(text: string) | NotText

  /** `enc` is the scheme on the envelope; `failed` the mark that the content is withheld. */
  datatype Message = Message(user: string, enc: Option<string>, content: Content, failed: Option<Reason>)

  function TokenOf(content: Content): Token {
    if content.Cipher? then content.token else Garbled
  }

  function MarkUndecryptable(m: Message, reason: Reason): Message {
    m.(content := Clear(PLACEHOLDER), failed := Some(reason))
  }

  function DecryptContent(byId: map<nat, SenderKey>, room: string, m: Message): Message {
    if m.content.NotText? || m.enc.None? then m
    else if m.enc != Some(SCHEME) then MarkUndecryptable(m, DifferentScheme)
    else
      var text := Decrypt(byId, room, TokenOf(m.content));
      if text.Ok? then m.(content := Clear(text.value)) else MarkUndecryptable(m, DifferentPassword)
  }

  /** The name recorded for a holder: our own, or the one on the peer's last valid offer. */
  function NameOf(k: Keys, username: string, peerUsers: map<PublicKey, string>, holder: Option<PublicKey>): string {
    match holder
    case None => ""
    case Some(h) => if h == k.PublicKey() then username else if h in peerUsers then peerUsers[h] else ""
  }

  function KeyOwner(k: Keys, t: Token): Option<PublicKey> {
    if t.Token? && t.id in k.holders then Some(k.holders[t.id]) else None
  }

  /** What becomes of a message: shown, shown with its content withheld, or dropped as seen before. */
  function Receive(k: Keys, room: string, username: string, peerUsers: map<PublicKey, string>, seen: seq<Head>,
                   m: Message)
    : (seq<Head>, Option<Message>)
  {
    var opened' := DecryptContent(k.byId, room, m);
    if opened'.failed.Some? || opened'.enc.None? || m.content.NotText? then (seen, Some(opened'))
    else
      var token := TokenOf(m.content);
      var expected := NameOf(k, username, peerUsers, KeyOwner(k, token));
      var head := HeadOf(token);
      if expected == "" || opened'.user != expected then (seen, Some(MarkUndecryptable(opened', DifferentSender)))
      else if head.None? || head.value in seen then (seen, None)
      else (Remember(seen, head.value), Some(opened'))
  }

  /**
   A scheme-marked text that reaches the reader unmarked was opened with the key of one holder, carries the name
   recorded for that holder, and had not been seen; it is remembered from then on.
  */
  lemma DeliveredIsOriginal(ids: KeyIds, k: Keys, room: string, username: string, peerUsers: map<PublicKey, string>,
                            seen: seq<Head>, m: Message)
    requires Coherent(ids, k)
    requires m.enc.Some? && !m.content.NotText?
    ensures var (seen', shown) := Receive(k, room, username, peerUsers, seen, m);
            if shown.Some? && shown.value.failed.None? then
              && m.content.Cipher? && m.content.token.Token? && m.enc == Some(SCHEME)
              && var t := m.content.token;
              && t.id in k.byId && t.id in k.holders && ids(k.byId[t.id]) == t.id
              && t.body == Ciphertext.Sealed(k.byId[t.id], t.nonce, room, Text(t.body.payload.content))
              && shown.value.content == Clear(t.body.payload.content)
              && shown.value.user == m.user == NameOf(k, username, peerUsers, Some(k.holders[t.id])) != ""
              && Head(t.id, t.nonce) !in seen && seen' == Remember(seen, Head(t.id, t.nonce))
            else seen' == seen
  {
  }

  /**
   And an honest text does get through: whoever holds its key, knows its sender's name and has not seen it shows it.
  */
  lemma HonestTextIsShown(ids: KeyIds, k: Keys, room: string, username: string, peerUsers: map<PublicKey, string>,
                          seen: seq<Head>, key: SenderKey, nonce: nat, content: string, user: string)
    requires Coherent(ids, k) && ids(key) in k.byId && k.byId[ids(key)] == key
    requires user == NameOf(k, username, peerUsers, Some(k.holders[ids(key)])) && user != ""
    requires Head(ids(key), nonce) !in seen
    ensures Receive(k, room, username, peerUsers, seen,
                    Message(user, Some(SCHEME), Cipher(Encrypt(ids, key, nonce, room, content)), None))
         == (Remember(seen, Head(ids(key), nonce)), Some(Message(user, Some(SCHEME), Clear(content), None)))
  {
    DecryptEncrypt(ids, key, nonce, room, content, k.byId, room);
  }

  /** A text sealed for this room with a key we hold, in the name recorded for the key's holder. */
  predicate Genuine(k: Keys, room: string, username: string, peerUsers: map<PublicKey, string>, m: Message) {
    && m.enc == Some(SCHEME) && m.content.Cipher? && m.content.token.Token?
    && var t := m.content.token;
    && t.id in k.byId && t.body.Sealed? && t.body.payload.Text?
    && t.body == Ciphertext.Sealed(k.byId[t.id], t.nonce, room, Text(t.body.payload.content))
    && t.id in k.holders && m.user == NameOf(k, username, peerUsers, Some(k.holders[t.id])) != ""
  }

  /**
   What the reader gets for every message: plain ones as they are, genuine ones once, and of all others the
   placeholder.
  */
  lemma ReceptionExactly(ids: KeyIds, k: Keys, room: string, username: string, peerUsers: map<PublicKey, string>,
                         seen: seq<Head>, m: Message)
    requires Coherent(ids, k) && m.failed.None?
    ensures var (seen', shown) := Receive(k, room, username, peerUsers, seen, m);
            if m.enc.None? || m.content.NotText? then shown == Some(m) && seen' == seen
            else if !Genuine(k, room, username, peerUsers, m) then
              var reason := if m.enc != Some(SCHEME) then DifferentScheme
                            else if Decrypt(k.byId, room, TokenOf(m.content)).Ok? then DifferentSender
                            else DifferentPassword;
              seen' == seen && shown == Some(m.(content := Clear(PLACEHOLDER), failed := Some(reason)))
            else
              var t := m.content.token;
              if Head(t.id, t.nonce) in seen then shown == None && seen' == seen
              else shown == Some(m.(content := Clear(t.body.payload.content)))
                   && seen' == Remember(seen, Head(t.id, t.nonce))
  {
  }

  /** A text under any other name than the one recorded for the holder of its key is withheld, whoever relabelled it. */
  lemma RelabelledIsWithheld(k: Keys, room: string, username: string, peerUsers: map<PublicKey, string>,
                             seen: seq<Head>, m: Message)
    requires m.content.Cipher? && m.enc.Some? && m.failed.None?
    requires m.user != NameOf(k, username, peerUsers, KeyOwner(k, m.content.token))
    ensures var (seen', shown) := Receive(k, room, username, peerUsers, seen, m);
            seen' == seen && shown.Some? && shown.value.failed.Some? && shown.value.content == Clear(PLACEHOLDER)
  {
  }
}
