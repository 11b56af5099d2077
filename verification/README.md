# ProxyChat core: a verified model

ProxyChat is a self-hosted, end-to-end encrypted chat with voice. This project models the decision logic of its
`core/` package in Dafny and proves what that logic promises. Sockets, threads and the cryptographic libraries are
outside; everything that decides is inside: which key belongs to whom, which frame is played when, which name
somebody gets, to whom a datagram goes.

Where the code changes an object step by step, the model has a class with the same fields, and each method is proved
against a function of the old state. What is promised over a whole run is then proved about those functions. Where
the code only computes, the model has functions and lemmas.

## The parts

- **Room session and key exchange** (`KeyAgreement`, `SessionKeys`, `KeyExchange`, `Messages`, `Envelope`,
  `RoomSession`, `DeferredQueue`, `Inbox`, `ChatClient`, `Protocol`, `Meeting`, `EndToEnd`). Tags, wraps and ciphertexts are
  terms that only the right key makes or opens; the Diffie-Hellman agreement is the one of section 6.1 of RFC 7748.
  A key id is an arbitrary function of the key and may collide. `Inbox` follows one client through a whole run in one
  room: keys, member lists, texts, and texts held back, with both of its threads at work. `Protocol` puts any number of
  clients on a network that reorders, repeats, reflects and invents packets, and that may hold leaked passwords.
  `Meeting` shows that two honest clients get through to each other after any such run. `EndToEnd` lets the clients
  read: what is shown to one of them was said by another, and what a friend says is shown.
- **Jitter buffer** (`JitterSpec`, `VoiceJitter`, `JitterRuns`, `JitterConvergence`, `Extremes`). Filling, playing,
  underrun, resync and catch-up; every frame and every slot of every run is accounted for.
- **Replay window, voice cipher, voice session** (`ReplayWindow`, `VoiceCipher`, `VoiceSession`). The bitmap is the
  code's, bit by bit, in the manner of section 3.3.2 of RFC 3711. With the jitter buffer behind it, it gives
  "played at most once".
- **Server** (`RoomNames`, `Membership`, `ChatServer`, `VoiceRelay`, `RateLimiter`, `History`, `OrderedDict`). One
  step per packet. `ChatServer` runs the chat rooms and the voice relay together.
- **Line framing** (`LineSocket`), **noise gate** (`NoiseGate`), **padding** (`Padding`).

## What the proofs show about the code

- The order in which a peer's offer and sender key are handled does matter in two situations, and only there: an
  older waiting key opens while the newer one does not, or the table of waiting keys is full and this peer has no
  place in it. `KeyExchange.OrderIndependent` is an equivalence; `KeyExchange.OlderKeyIsLost` and
  `KeyExchange.StrangerIsPushedOut` lead a new client by packets alone into each of the two situations.
- The noise gate counts a frame twice while it is switched off (core/voice_gate.py:162-164 and 203-206), so its
  counters add up to the number of calls exactly when it never was. `GateRuns.CountersBalance` gives the exact sum
  in all cases. Loud and queued frames come out unchanged even if thresholds and switch change in between.
- The jitter buffer judges a number as late only while it is playing; after an underrun it plays a number again
  (`JitterRuns.AloneItRepeats`). When exactly a number is taken again is said by `JitterRuns.PlayedAgainExactly` for
  one of the present episode, by `JitterRuns.TakenAheadExactly` for one of an earlier episode that lies ahead, and by
  `JitterRuns.TakenWhileFillingExactly` for the time between episodes. A new salt for a known sender starts an empty window while the old frames stay buffered, so that a number
  may count as a duplicate then (`SessionSpec.ResaltCanDuplicate`, and exactly when: `PlayedOnce.DuplicateExactly`);
  none is played twice under the registration it came in. And a salt that comes back after another one brings an empty
  window with it: what was recorded under it opens and is taken again (`SessionSpec.ReturningSaltReplays`, and exactly
  when: `CipherSpec.OpensAgainExactly`). The salts are announced by the server.
- `VoiceSession.incoming` catches decryption errors only: the packet error that opening raises for an oversized or
  empty body escapes to the caller (core/voice_session.py:215-248). The model returns it as `escaped`;
  `SessionSpec.EscapesExactly` says when, and `SessionSpec.BareHeaderEscapes` gives such a packet.
- The result of reading lines does not depend on how the stream is cut for any stream, too long lines included: the
  results agree up to and including the first line that is too long. A last line without a newline is decoded even
  when it is blank, while blank lines with a newline are skipped.
- The history packet stays below the limit less the margin by at least one byte, because its first message is
  charged for a comma it does not need.
- Everyone in a voice room who names a codec has the same one as long as nobody changes room; `VoiceRelay.move` does
  not look at the codec, and a room keeps one codec exactly when the test that joining makes would have let the codec
  of whoever moves in stand (`RelayRuns.MoveKeepsOneCodecExactly`).
- The hub's tables part exactly when somebody goes from a room without a name to one that has a name, because a room
  without a name is never left (core/hub.py:59; `HubSpec.JoiningPartsExactly`). The server's name cleaning makes sure
  that no room is without a name.
- The numbered names of `_unique_username` run out only when at least 99 names are in use; with at most 50 clients
  the ending made of the client's id is unreachable.

## Model

| member | source | states |
|---|---|---|
| EndToEnd.ShownTextsWereSaid | core/client.py:600-663 | In every run on the hostile network, a scheme-marked text shown unmarked to somebody whose password did not leak was read at an event before which an honest member of the same room with the same password had said it, word for word, and carries the name that the reader had recorded for that member just then |
| EndToEnd.FriendsTalk | core/client.py:284-287 | After any course of events on the hostile network: when two honest clients of one room and password take each other's offers and replies and one says something new, the other is shown it on reading it, word for word and in that member's name, unless somebody else already held the id of the key |
| EndToEnd.SaidTextIsShown | core/client.py:600-663 | A text of a known peer of the room that was not seen yet adds exactly itself, unmarked, to what its reader is shown |
| EndToEnd.ShownWasRead | core/client.py:600-663 | Whatever a client was shown goes back to one event of the run, at which it read that message with the keys and names it had just then |
| EndToEnd.NoTextIsRepeatedEarly | core/room_session.py:316-330 | In every such run, leaked passwords included, one text is shown to a client again only after at least 8192 other showings |
| Inboxes.EveryRunKeeps | core/client.py:268-330 | In every run of one client in one room, whatever arrives and however the steps of its threads interleave: key maps tidy, the memory exactly the newest openings, every text opened sealed with the key of one holder, every held message accounted for |
| Inboxes.OpenedTextsAreOriginal | core/client.py:600-663 | In every such run an opened text was sealed with the key of one holder, and carries the name that the client had recorded for that holder after some number of the run's events |
| Inboxes.NoTextReturnsEarly | core/client.py:629-663 | In every such run the same text is opened again only after at least 8192 other openings |
| Inboxes.FlushKeeps | core/client.py:520-546 | Selecting and delivering held messages, each through the same reception, keeps all of that |
| Inboxes.AbsorbKeeps | core/client.py:357-444 | So does a key packet with the flush and the publication that follow a key gained |
| Inboxes.HearKeeps | core/client.py:284-287 | So does a text: flush, then hold and flush again, or deliver |
| Inboxes.AbsorbIsSteps | core/client.py:357-444 | What a key packet does in one go is a series of the run's steps |
| Inboxes.HearIsSteps | core/client.py:284-287 | So is what a text does in one go, flushes included |
| Readers.ReadAdds | core/client.py:624-663 | Reading a message adds nothing, or one entry that is withheld or plain and leaves the memory alone, or one that is original, new and remembered |
| Meetings.FriendsMeet | core/client.py:380-444 | After any run, two honest clients of one room and password who take each other's offers and then each other's replies each have the other's own key and show the other's name as verified, unless somebody else already held the id |
| Inboxes.DropAllForgets | core/client.py:548-558 | Dropping everybody leaves our own key alone and nothing held, and what was shown stays shown |
| Inboxes.DefersExactly | core/client.py:497-509 | Held is exactly a sealed text whose key is not among ours, as long as no offer has failed |
| Inboxes.HeardTextIsHeld | core/client.py:485-518 | A text whose key is unknown, while no offer has failed, is held from its arrival and is in the queue or delivered afterwards |
| Inboxes.HeardTextIsShown | core/client.py:284-287 | Any other text adds one entry with it to what is shown, unless it is genuine and was seen before |
| Inboxes.HonestTextIsHeard | core/client.py:284-287 | A genuine new text is the last thing handed to the interface, word for word and unmarked |
| Inboxes.AbsorbSettles | core/client.py:405-444 | After a key packet nothing readable is held any more, and when a peer was keyed the verified names of now were published |
| Inboxes.HearSettles | core/client.py:284-287 | After a text nothing readable is held |
| Protocol.EveryRunKeeps | core/client.py:357-444 | In every run of any number of clients on a hostile network, every client's key maps agree, every honest holder is genuine, and everything the network knows is something it may know |
| Protocol.HoldersAreGenuine | core/room_session.py:210-246 | If a client holds an honest peer's public key for an id, the key under that id is that peer's own, that peer accepted this client's offer, and both used one room and one password, even when passwords leaked |
| Protocol.SenderKeysStaySecret | core/key_agreement.py:185-204 | A sender key never becomes known to the network as long as its owner's room password does not leak |
| Protocol.TextsAreGenuine | core/room_session.py:351-368 | A text that opens under an honest holder's key was sealed by that holder, with that nonce, in this room, if the password did not leak |
| Protocol.VerifiedUsersProvedPassword | core/client.py:446-466 | Every name listed as verified belongs to a peer in the same room with the same password who accepted our offer, if the password did not leak |
| KeyAgreement.PairKeysAgree | core/key_agreement.py:225-256 | Two sides derive the same pair key, and only the same two scalars with the same pre-shared key do |
| KeyAgreement.WrapOpensForPeer | core/key_agreement.py:185-204 | A wrapped sender key opens for the peer it was made for and is refused under every other pair key |
| SessionKeys.AcceptOfferCoherent | core/room_session.py:210-219 | Accepting an offer keeps the four maps coherent and never accepts our own key |
| SessionKeys.AcceptSenderKeyCoherent | core/room_session.py:221-246 | Accepting a sender key keeps the ids of both maps equal, the holders the inverse of the peers' ids, keyed peers within the pairs, and our own id untouched, whatever ids collide |
| SessionKeys.ForgetPeerCoherent | core/room_session.py:248-261 | Forgetting a peer keeps the maps coherent |
| SessionKeys.AcceptSenderKeyTouchesOne | core/room_session.py:239-246 | Keying or re-keying one peer leaves every other peer's entries as they were, and that peer has exactly the new key |
| SessionKeys.ForgetPeerTouchesOne | core/room_session.py:248-261 | Forgetting removes all that peer had and nothing of anybody else |
| SessionKeys.ReflectedWrapRefused | core/room_session.py:232-238 | Our own wrap coming back under a peer's name is refused, because our id is held already |
| SessionKeys.OffersMeet | core/room_session.py:206-246 | Two clients with one room and password verify each other's offers, and the reply opens, unless somebody else holds a colliding id |
| RoomSessions.RoomSession.constructor | core/room_session.py:170-196 | A new session knows its own key and nothing else, and has shown nothing |
| RoomSessions.RoomSession.AcceptOffer | core/room_session.py:210-219 | The new maps and the reply, or the error and unchanged maps |
| RoomSessions.RoomSession.AcceptSenderKey | core/room_session.py:221-246 | The new maps and the id, or the error and unchanged maps; coherence is kept |
| RoomSessions.RoomSession.ForgetPeer | core/room_session.py:248-261 | The maps without that peer |
| RoomSessions.RoomSession.CanRead | core/room_session.py:297-304 | True exactly when the token's id is known, without decrypting |
| RoomSessions.RoomSession.FirstSight | core/room_session.py:316-330 | True exactly when the message is not among the last 8192 shown; the memory stays exactly the most recent shown |
| KeyExchange.ValidOffersAreAnswered | core/client.py:380-405 | A packet is answered if and only if it is an offer of somebody else's usable key with the tag the room's password gives for it, and the answer opens to our sender key under the pair key of the other side |
| KeyExchange.ValidOfferPairs | core/client.py:396-406 | A valid offer pairs its peer under the name it came with and takes the peer off the waiting list |
| KeyExchange.InvalidOfferIsNoted | core/client.py:386-396 | A tagged offer that is not valid is noted as a mismatch while there is room, and changes nothing else |
| KeyExchange.NotOursIsIgnored | core/client.py:370-374 | Our own packets coming back, packets without a key, and sender keys meant for somebody else change nothing |
| KeyExchange.EarlyKeyWaits | core/client.py:422-436 | A sender key before its offer waits; in a full table exactly the one that has waited longest goes |
| KeyExchange.OrderIndependent | core/client.py:380-444 | Offer and sender key in either order end in the same state if and only if the stated condition on the waiting table does not hold |
| KeyExchange.OlderKeyIsLost | core/client.py:405-442 | A state reached by one early key in which the two orders end differently: the older key opens, the newer does not |
| KeyExchange.StrangerIsPushedOut | core/client.py:415-435 | A state reached by the keys of 256 strangers in which the two orders end differently |
| KeyExchange.HandleTidy | core/client.py:357-444 | Every key packet keeps the maps coherent, recorded names matching the pairs, nobody both waiting and paired, and both tables of strangers within 256 |
| KeyExchange.LaterKeyWins | core/client.py:406-413 | Whatever the peer had before, a second key that opens replaces the first completely, and one that does not changes nothing |
| KeyExchange.ForgetAbsentTidy | core/client.py:560-579 | Forgetting the absent keeps all of that too |
| KeyExchange.ForgottenExactly | core/client.py:560-579 | Exactly the peers whose recorded name is missing from the list lose pair, key, name and waiting key; everybody else keeps all of them |
| KeyExchange.DroppingAllIsFresh | core/client.py:548-558 | Dropping every peer leaves exactly a newly opened session |
| ChatClients.ChatClient.HandleKeyExchange | core/client.py:357-444 | State and reply after a key packet, with the flush of held messages and the publication of verified names exactly when a key is gained; our own packets are ignored |
| ChatClients.ChatClient.AcceptOffer | core/client.py:380-413 | The offer's effect: a mismatch recorded within the limit, or pair, name and a waiting key taken up; whether a key was gained, upon which the caller flushes and publishes |
| ChatClients.ChatClient.AcceptSenderKey | core/client.py:415-444 | A key for us is taken, or waits for its offer, at the limit in place of the oldest; whether a key was gained |
| ChatClients.ChatClient.ForgetAbsentPeers | core/client.py:560-579 | One by one, exactly the peers whose recorded name is absent are forgotten, and if there are any the verified names are published |
| ChatClients.ChatClient.DropAllPeers | core/client.py:548-558 | Session and tables are as new, nothing is held, and what was shown is still remembered |
| ChatClients.ChatClient.OpenMessage | core/client.py:624-663 | Shown, withheld or dropped as the reception function says, with the memory it leaves |
| ChatClients.ChatClient.Deliver | core/client.py:600-606 | A message reaches the interface exactly as the reception shows it, or not at all |
| ChatClients.ChatClient.Incoming | core/client.py:284-287 | What the listening loop does with a text: held messages first, then hold it or deliver it |
| ChatClients.ChatClient.DeferIfUnreadable | core/client.py:485-518 | A message is held exactly when its key is unknown and no offer has failed, and held messages are then looked through |
| ChatClients.ChatClient.FlushDeferred | core/client.py:520-546 | After a flush at most 50 are held, none readable, none timed out, and everything selected has gone through the origin check |
| Messages.DecryptEncrypt | core/room_session.py:337-368 | A message opens in its own room for whoever holds its key under its id, and nowhere else |
| Envelope.DeliveredIsOriginal | core/client.py:600-663 | A scheme-marked text delivered unmarked was opened with the key of one holder, carries the name recorded for that holder, and was not among the messages remembered |
| Envelope.HonestTextIsShown | core/client.py:629-663 | A text sealed with a known key, in the name recorded for its holder and not yet seen, is shown and remembered |
| Envelope.ReceptionExactly | core/client.py:624-663 | For every message: a plain one is shown as it is, a genuine one once and word for word, any other one with the placeholder and the reason; nothing else is remembered |
| Envelope.RelabelledIsWithheld | core/client.py:629-663 | A text under any other name than the recorded one is withheld |
| SeenMemory.NoEarlyRepeat | core/room_session.py:316-330 | For any series of calls, the memory is exactly the newest messages answered with True, at most 8192, and equal ones are answered so more than 8192 places apart |
| DeferredQueue.Flush | core/client.py:520-546 | The loop splits the queue into deliveries and remainder, loses and doubles nothing, and leaves at most 50, none readable or timed out |
| DeferredQueue.SplitInOrder | core/client.py:530-546 | Deliveries and remainder both keep arrival order |
| DeferredQueue.FlushedExactly | core/client.py:530-546 | A held message is delivered if and only if it is readable, three seconds old, or beyond the newest fifty |
| DeferredQueue.EveryRunAccounted | core/client.py:485-558 | Under any interleaving of two threads every held message is in exactly one place, and queue and selections are in arrival order |
| DeferredQueue.DeliveredExactlyOnce | core/client.py:520-546 | No message is delivered twice, and one neither held, selected nor cleared was delivered |
| ReplayWindows.ReplayWindow.Check | core/voice_crypto.py:243-270 | True exactly for a number never accepted and inside the window; the bitmap goes on standing for the set |
| ReplayWindows.ReplayWindow.Reset | core/voice_crypto.py:272-274 | The window is as new |
| ReplayWindows.RunOfChecks | core/voice_crypto.py:222-270 | For every size and every series of calls: true if and only if no earlier call answered with true had this number or one the size or more ahead |
| Bits.MaskBit | core/voice_crypto.py:229-237 | One shifted left by the size, less one, has exactly the bits below the size |
| Bits.ProbeBit | core/voice_crypto.py:264-267 | Shifting right and masking one bit reads exactly that bit |
| VoicePackets.EncodeHeader | core/voice_packet.py:99-136 | A header is made exactly for an id and a number in range, carries them with the kind and the time modulo 2^32, and decodes to itself if the kind is known |
| VoiceCiphers.VoiceCipher.AddSender | core/voice_crypto.py:311-339 | The table of senders after a registration, or the error and an unchanged table |
| VoiceCiphers.VoiceCipher.Renew | core/voice_crypto.py:333-339 | The same salt keeps key and window; a new salt starts with an empty window |
| VoiceCiphers.VoiceCipher.Forget | core/voice_crypto.py:491-494 | Key and window of a peer are gone; our own stay |
| VoiceCiphers.VoiceCipher.Seal | core/voice_crypto.py:349-364 | Every datagram has a nonce unlike all those before it; a number at or below the last is refused; the result opens to the audio |
| VoiceCiphers.VoiceCipher.Open | core/voice_crypto.py:366-386 | Header and audio, or the error; on any error every window is as it was |
| CipherSpec.OpensExactly | core/voice_crypto.py:366-386 | A datagram opens if and only if it is well formed, sealed by its known sender for its own header, and new to that sender's window |
| CipherSpec.RegistersExactly | core/voice_crypto.py:311-339 | Which registrations are refused, and that an accepted one changes at most that sender |
| CipherSpec.WindowsGrow | core/voice_crypto.py:311-386 | While a registration goes on, what its window has accepted only grows, whatever arrives and whoever else registers or leaves |
| CipherSpec.OpensOnce | core/voice_crypto.py:366-386 | Under one unbroken registration, our own included, no number opens twice, whoever else registers or leaves in between |
| CipherSpec.OpensAgainExactly | core/voice_crypto.py:311-386 | Once another salt was announced in between, what opened before opens again if and only if salt and sender key then announced lead to the session key it was sealed with |
| PlayedOnce.PushKeeps | core/voice_session.py:236-248 | A frame whose number the window newly accepted can be buffered without breaking the promise, and under the first salt never counts as a duplicate |
| PlayedOnce.PopKeeps | core/voice_jitter.py:209-239 | What a pop hands out was buffered, carries its payload, and was never handed out before |
| PlayedOnce.DuplicateExactly | core/voice_jitter.py:174-207 | A newly accepted number counts as a duplicate if and only if a frame is buffered under it and the buffer judges it neither late nor a resync; that frame came in under an earlier salt |
| SessionSpec.ResaltCanDuplicate | core/voice_session.py:168-248 | A run of a session in which that happens: the same number under two salts leaves the counter at 1 |
| SessionSpec.ReturningSaltReplays | core/voice_session.py:168-248 | A run of a session in which a recorded frame is taken a second time after its salt went and came back |
| SessionSpec.EscapesExactly | core/voice_session.py:215-248 | The packet error escapes if and only if a known peer's packet has an empty or too long body |
| SessionSpec.BareHeaderEscapes | core/voice_session.py:231-234 | A header without a body is such a packet |
| SessionSpec.EveryRunKeeps | core/voice_session.py:168-286 | In every run of joins, departures, salts, datagrams and plays, senders, buffers and windows match and nothing is played twice |
| SessionSpec.NothingIsPlayedTwice | core/voice_session.py:215-286 | In every run, two plays never hand out the same frame of a sender who stays in between: the same number under the same registration |
| SessionSpec.RecordGrows | core/voice_session.py:168-286 | While a sender stays, the record of what was handed out for it only grows |
| SessionSpec.PlayRecords | core/voice_session.py:262-286 | What a play hands out is on record from then on |
| SessionSpec.NextPlayIsNew | core/voice_session.py:262-286 | What the next play hands out is not on record yet; under one salt the duplicate counter is 0 |
| VoiceSessions.VoiceSession.AddPeer | core/voice_session.py:168-176 | The session after a registration, or the error |
| VoiceSessions.VoiceSession.RemovePeer | core/voice_session.py:178-182 | Buffer, key and window are gone |
| VoiceSessions.VoiceSession.Incoming | core/voice_session.py:215-248 | The session after a datagram, which of the three counters it moves, and which error escapes |
| VoiceSessions.VoiceSession.Play | core/voice_session.py:262-286 | Every peer's buffer is popped once, and each peer is handed its own frame: the one buffered under the number whose turn it is, or nothing when none is |
| VoiceJitter.JitterBuffer.Push | core/voice_jitter.py:174-207 | Resync, late, duplicate, overflow or taken, with the counter each one moves |
| VoiceJitter.JitterBuffer.Pop | core/voice_jitter.py:209-239 | Underrun, filling, or the slot whose turn it is after catching up; the buffer stays within its capacity |
| VoiceJitter.JitterBuffer.CatchUp | core/voice_jitter.py:248-277 | Flag, gap skip, rate-limited drop and second gap skip |
| VoiceJitter.JitterBuffer.DropHead | core/voice_jitter.py:270-277 | The frame to delete is always there when a drop is due |
| VoiceJitter.JitterBuffer.SkipMissing | core/voice_jitter.py:279-285 | The loop moves to the first filled slot, or to where the excess ends |
| JitterSpec.MakeConfig | core/voice_jitter.py:93-142 | Which settings are refused; target and slack are the least number of frames that cover them, the target at least one; capacity and interval are as given |
| JitterSpec.CatchUpEffect | core/voice_jitter.py:248-285 | Catching up keeps the newest frame and every payload from its new position on, and accounts for each slot and frame it gave up |
| JitterSpec.CatchUpIsGentle | core/voice_jitter.py:248-285 | It never takes the depth below the target, never empties the buffer, and drops at most one frame per pop |
| JitterSpec.PushDecides | core/voice_jitter.py:174-207 | Every push is exactly one of resync, late, duplicate, overflow and taken, each with its counter and its effect |
| JitterSpec.PlaybackWaits | core/voice_jitter.py:218-231 | With fewer frames than the target a pop hands out and changes nothing; with the target it starts at the oldest |
| JitterSpec.ResetForgets | core/voice_jitter.py:241-246 | After a reset nothing is held and the buffer fills from the start; the counters stay |
| JitterSpec.RunningDry | core/voice_jitter.py:209-239 | A playing buffer without frames counts an underrun and fills again |
| JitterSpec.NextOneIsPlayed | core/voice_jitter.py:209-239 | When not catching up, a pop hands out the next number's frame, or counts it as lost, and takes nothing else |
| JitterSpec.HysteresisExactly | core/voice_jitter.py:248-259 | Catch-up is on afterwards if and only if the depth is above target and slack, or it was on and the depth is above the target; off, it skips and drops nothing |
| JitterSpec.DropsExactly | core/voice_jitter.py:261-277 | A real frame is dropped if and only if catch-up is on, more frames than the target are held, and the interval has passed; above the target, the head is filled afterwards |
| JitterRuns.EveryRunIsSound | core/voice_jitter.py:174-292 | In every run: frames of an episode come out in increasing order with the payloads accepted; slots and frames balance; capacity and pacing hold |
| JitterRuns.PopAccounts | core/voice_jitter.py:209-239 | Slots advanced by a pop are played, lost, dropped and skipped, and the frames gone are those played and dropped |
| JitterRuns.DropsAreRateLimited | core/voice_jitter.py:262-277 | Interval times drops is at most the playing pops plus one interval |
| JitterRuns.PlayedAgainExactly | core/voice_jitter.py:182-196 | In every run, a number played in the present episode is taken again if and only if it lies more than the capacity behind |
| JitterRuns.TakenWhileFillingExactly | core/voice_jitter.py:191-207 | While not playing, any number is taken if and only if it is not held and there is room |
| JitterRuns.TakenAheadExactly | core/voice_jitter.py:191-207 | While playing, a number ahead and within reach is taken if and only if it is not held and there is room |
| JitterRuns.AloneItRepeats | core/voice_jitter.py:191-196 | A run in which the buffer by itself plays one number twice |
| JitterConvergence.RoundSettles | core/voice_jitter.py:248-277 | One pop and one frame in order lower the excess by one when a drop is due, and otherwise leave it |
| JitterConvergence.CatchUpConverges | core/voice_jitter.py:248-277 | A gapless buffer above its target by more than the slack, or catching up already, is at its target after interval times excess rounds and stays there, having dropped exactly the excess |
| JitterConvergence.ConvergesExactly | core/voice_jitter.py:248-277 | A gapless buffer gets to its target if and only if it is there, is catching up, or is above target and slack |
| RelaySpec.HandleReachesTheRoom | core/voice_relay.py:228-259 | Audio from a bound address within its pace goes once to everybody else in the room with a bound address, in the order of joining, at that address; everything else goes nowhere |
| RelaySpec.RejectedOtherwise | core/voice_relay.py:228-283 | Every datagram is counted as rejected unless it bound an address or was forwarded |
| RelaySpec.JoinEnters | core/voice_relay.py:151-180 | Whoever joins has the next id, exactly what it brought and no address, and nobody else's entry changes; with no id left it is out |
| RelaySpec.LeaveExits | core/voice_relay.py:182-187 | Whoever leaves is out, and nobody else's entry changes |
| RelaySpec.DetailsChange | core/voice_relay.py:189-212 | A change of room, name or salt changes that one detail of that one entry |
| RelaySpec.HandleKeeps | core/voice_relay.py:228-279 | Handling a datagram keeps the tables inverse views and bound addresses on their own machines |
| RelaySpec.HandleMovesNobody | core/voice_relay.py:228-268 | The voice path changes nobody's room or name |
| RelaySpec.JoinKeeps | core/voice_relay.py:151-180 | Joining, renewal and exhausted ids included, keeps the tables inverse views with all ids below the next |
| RelaySpec.LeaveKeeps | core/voice_relay.py:182-187 | Leaving takes a client out of both tables |
| RelayRuns.EveryRunKeeps | core/voice_relay.py:151-279 | All of this in every run |
| RelayRuns.BoundCameWithToken | core/voice_relay.py:261-268 | In every run a bound address is one from which a hello with that participant's id and token came, after the joining that gave it both |
| RelayRuns.HelloBinds | core/voice_relay.py:261-268 | A hello from the participant's own machine with its id and token binds the address it comes from, a second time as well |
| RelayRuns.HelloIsMade | core/voice_relay.py:261-264 | Such a hello is made of the id and the token, whatever else it carries |
| RelayRuns.AddressIsLastHello | core/voice_relay.py:228-268 | In every run the bound address of a participant is exactly the source of its last such hello since it was given its id, and none before the first |
| RelayRuns.AudioIsRelayed | core/voice_relay.py:246-279 | In every run voice from the bound address of a participant goes once to everybody else in the room with a bound address, in the order of joining, unless sixty of that participant's packets were forwarded within the last second |
| RelayRuns.IdsNeverReused | core/voice_relay.py:151-187 | Ids are handed out in strictly increasing order over a whole run |
| RelayRuns.FloodIsCut | core/voice_relay.py:270-279 | Of all packets forwarded for an id in a run, any two 120 or more places apart are more than one second apart |
| RelayRuns.EveryRunKeepsPace | core/voice_relay.py:270-279 | In every run, what was forwarded for an id fell into windows of at most 60 that begin a second or more apart, the newest of them the participant's own |
| RelayPace.TickKeepsSteady | core/voice_relay.py:270-279 | A packet let through keeps at most 60 in the window, and the next window starts after the last is over |
| RelayPace.RefusedOnlyWhenFull | core/voice_relay.py:270-279 | A packet is refused only when sixty have been let through within the last second |
| RelayRuns.OneCodecUnlessMoved | core/voice_relay.py:138-149 | Without changes of room everyone in a room who names a codec names the same |
| RelayRuns.MoveKeepsOneCodecExactly | core/voice_relay.py:189-193 | A move to another room keeps that if and only if the mover names no codec or the room's codec is the mover's |
| RelayRuns.MoveCanMixCodecs | core/voice_relay.py:189-193 | A run in which a move breaks it |
| VoiceRelays.VoiceRelay.Join | core/voice_relay.py:151-180 | The relay after joining, and the participant; the error exactly when ids are exhausted |
| VoiceRelays.VoiceRelay.Leave | core/voice_relay.py:182-187 | The relay without the client, and the entry removed |
| VoiceRelays.VoiceRelay.Move | core/voice_relay.py:189-193 | The entry's new room |
| VoiceRelays.VoiceRelay.Rename | core/voice_relay.py:209-212 | The entry's new name |
| VoiceRelays.VoiceRelay.SetSalt | core/voice_relay.py:195-207 | The salt, cut to 64 characters; whether the client is in voice |
| VoiceRelays.VoiceRelay.AgreedCodec | core/voice_relay.py:138-149 | The codec of the first participant of the room who has one, or else the proposed one |
| VoiceRelays.VoiceRelay.Handle | core/voice_relay.py:228-259 | The relay and the addresses after a datagram |
| ServerSpec.EveryRunKeeps | core/server.py:450-686 | In every run: hub, registry and threads agree, no room is empty, no two names in a room fold alike, and voice has everyone's present room and name |
| ServerSpec.RejoinKeeps | core/server.py:579-602 | A change of room, of name or of both keeps all of that |
| ServerSpec.JoinKeeps | core/server.py:488-496 | So does the first packet of a connection |
| ServerSpec.DisconnectKeeps | core/server.py:673-686 | So does the end of a connection, joined or not, in voice or not |
| ServerSpec.VoiceJoinKeeps | core/server.py:604-633 | So does joining voice, also when no id is left |
| ServerSpec.ConnectsBelowLimit | core/server.py:303-315 | A new client is taken up if and only if there are fewer than 50, and nothing else changes |
| ServerSpec.JoinSeats | core/server.py:488-496 | Whoever joins gets a seat in the room it named, or in "general", under the name it asked for if that is free and otherwise under it with a number; nobody else's seat changes |
| ServerSpec.RejoinSeats | core/server.py:579-602 | Whoever asks again gets a seat in the room it names now, or stays, by the same rule for the name, and stays in voice or out of it |
| ServerSpec.DisconnectLeavesNothing | core/server.py:673-686 | Nothing is left of whoever disconnects, in any table, and everybody else stays |
| ServerSpec.VoiceJoinEnters | core/server.py:604-633 | Whoever joins voice is in it under its seat, with what it brought cut to size and the token it was given |
| ServerSpec.FallbackIsUnreachable | core/server.py:436-448 | With at most 50 clients either the name asked for or one of the 98 numbered ones is free |
| ServerSpec.SettledNameIsFree | core/server.py:436-448 | The settled name folds unlike the name of everyone else in the room |
| RoomNames.FallbackNeeds99 | core/server.py:436-448 | The last resort needs at least 99 folded names in use |
| RoomNames.UniqueNameIsFree | core/server.py:436-448 | The name is free, and it is the one asked for exactly when that one is free |
| RoomNames.UniqueNameIsLeast | core/server.py:436-448 | A name that is not free gets the least number, from two on, that makes it free |
| RoomNames.FoldingACandidate | core/server.py:444-447 | Folding leaves a candidate's number as it is |
| RoomNames.Squeeze | core/server.py:429-434 | One space between words, none at the ends, empty exactly for blank text |
| RoomNames.SqueezeKeepsLetters | core/server.py:429-434 | Everything but white space is kept, in order |
| RoomNames.SqueezeJoinsWords | core/server.py:429-434 | It is exactly the words of the text joined with one space each |
| RoomNames.CleanName | core/server.py:428-434 | The fallback exactly for blank text, otherwise the tidied text cut to 64 characters; never empty when the fallback is not |
| ChatServers.ChatServer.Connect | core/server.py:303-315 | A connection is taken up exactly below 50 clients |
| ChatServers.ChatServer.UniqueUsername | core/server.py:436-448 | The loop finds the name asked for or the first free numbered one |
| ChatServers.ChatServer.Join | core/server.py:488-496 | The server after the first packet of a connection |
| ChatServers.ChatServer.Rejoin | core/server.py:579-602 | The server after a change of room or name, voice following |
| ChatServers.ChatServer.VoiceJoin | core/server.py:604-633 | The server after joining voice; with no id left the connection ends |
| ChatServers.ChatServer.Disconnect | core/server.py:673-686 | The server without that client |
| HubSpec.JoiningPartsExactly | core/hub.py:56-66 | Joining makes the hub's tables part if and only if somebody goes from a room without a name to one with a name |
| HubSpec.JoinRoomAgrees | core/hub.py:56-66 | While every room has a name, joining keeps the hub's two tables and the registry saying the same, and no room empty |
| HubSpec.LeaveRoomAgrees | core/hub.py:68-72 | So does leaving |
| HubSpec.BroadcastReachesTheRoom | core/hub.py:101-109 | A broadcast goes once to everyone in the room and to nobody else |
| HubSpec.SnapshotListsTheRoom | core/hub.py:124-126 | A snapshot lists exactly the names of those in the room |
| HubSpec.NamelessRoomIsNeverLeft | core/hub.py:58-60 | Two joins after which that has happened |
| MessageHubs.MessageHub.JoinRoom | core/hub.py:56-66 | The hub after joining, and the snapshot of the room |
| MessageHubs.MessageHub.LeaveRoom | core/hub.py:68-72 | The hub after leaving |
| MessageHubs.MessageHub.BroadcastTargets | core/hub.py:101-109 | The attached members of the room, in order |
| RegistrySpec.EnterNames | core/server_state.py:35-36 | Entering changes what the registry says about one client in one room and about nothing else |
| RegistrySpec.ExitNames | core/server_state.py:38-44 | Leaving likewise |
| RegistrySpec.ExitTidy | core/server_state.py:38-44 | A room goes with its last member |
| RegistrySpec.UsernamesAre | core/server_state.py:49-55 | Exactly the names of the members who are not excluded are listed |
| RegistrySpec.UsernamesInOrder | core/server_state.py:49-55 | In the order of the members |
| RoomRegistries.RoomRegistry.Join | core/server_state.py:35-36 | The registry after entering |
| RoomRegistries.RoomRegistry.Leave | core/server_state.py:38-44 | The registry after leaving |
| RateLimiters.RateLimiter.Allow | core/server.py:124-131 | Allowed exactly when fewer than the maximum were allowed in the closed window that ends now |
| Moments.IntervalHoldsAtMost | core/server.py:116-131 | No closed interval of that length, wherever it starts, holds more than the maximum |
| RateLimiters.DropOld | core/server.py:126-127 | The loop discards exactly what has left the window |
| History.WrittenRemembers | core/server.py:400-426 | The dictionary is exactly the 50 most recently written rooms, each with its last 100 messages since it was last pushed out |
| History.ChatHistory.Append | core/server.py:400-426 | Encrypted packets are never kept, nor any when history is off; otherwise the memory follows the full list of writes |
| History.HistoryPacket | core/server.py:376-398 | The longest run of newest messages, of the last 100, whose packet stays below the line limit less the margin |
| LineSockets.LineSocket.RecvPacket | core/transport.py:78-110 | The next result of the whole stream; a timeout changes nothing of what is still to come; the buffer stays within the line limit plus one chunk |
| LineSockets.LineSocket.ReadAll | core/transport.py:78-110 | All results, up to the end or the first line that is too long |
| LineSockets.ReadTwice | core/transport.py:78-110 | Two ways of cutting one stream, with timeouts anywhere, give the same results |
| Framing.LinesComeFirst | core/transport.py:78-110 | Of any stream the complete lines that fit come first, all but the blank ones, whatever follows |
| Framing.BlankExactly | core/transport.py:78-110 | Blank is white space only |
| Framing.RestOfStream | core/transport.py:78-110 | What a rest without a newline gives at the end |
| Framing.TooLongEnds | core/transport.py:78-110 | A line too long, complete or not, ends the results |
| Framing.ReadBack | core/transport.py:42-54 | What is sent line by line is read line by line |
| GateRuns.DelayLine | core/voice_gate.py:187-212 | The first outputs are silence, and every later one is the frame of that many calls before, unchanged, faded or silenced |
| GateRuns.CountersBalance | core/voice_gate.py:150-212 | Passed, silenced and queued are the calls plus those made while switched off |
| GateRuns.CountersAddUp | core/voice_gate.py:162-164 | They equal the calls if and only if the gate was never switched off |
| GateRuns.LoudFramesPass | core/voice_gate.py:165-201 | A frame at or above the opening threshold comes out unchanged, if the hold outlasts the look-ahead |
| GateRuns.QueuedFramesPass | core/voice_gate.py:165-201 | So do the frames queued when the gate opens |
| GateRuns.QuietShutsExactly | core/voice_gate.py:176-184 | An open gate stays open for exactly as many quiet frames as it has hold left, and shuts with the next |
| GateRuns.StepShuts | core/voice_gate.py:176-184 | With the hold used up a quiet frame shuts the gate and the fade begins |
| GateRuns.ResetStarts | core/voice_gate.py:214-219 | A reset gate is as good as new, but for its counters |
| GateRuns.StepFades | core/voice_gate.py:187-212 | A shut gate gives first what is marked, unchanged, then ever fainter frames, then silence |
| GateRuns.SilenceReturns | core/voice_gate.py:150-212 | In every run, once hold, look-ahead and fade have passed in quiet, every output is silence |
| GateRuns.StepSustains | core/voice_gate.py:176-179 | A frame at or above the closing threshold keeps an open gate open with its hold renewed |
| GateRuns.DisabledPasses | core/voice_gate.py:162-164 | Switched off, the gate passes every frame on unchanged, as late as ever |
| GateRuns.QueueIsSuffix | core/voice_gate.py:187-201 | The queue is the newest frames not yet given back |
| NoiseGates.NoiseGate.Process | core/voice_gate.py:150-185 | State and output are those of the gate's step function |
| NoiseGates.NoiseGate.Reset | core/voice_gate.py:214-219 | The gate is closed and empty, its counters stay |
| Padding.PadUnpad | core/padding.py:133-156 | Unpadding gives back the text; padding fails exactly above the largest plaintext; the size is the rung, filled with zeros |
| Padding.UnpadInverts | core/padding.py:143-156 | A payload unpads to a text exactly when it starts with its length and the text |
| Padding.BucketIsLeast | core/padding.py:124-130 | The rung is the least that holds the text and its length, and there is one exactly up to the largest plaintext |
| Padding.BucketFor | core/padding.py:124-130 | The loop over the ladder finds that rung |
| Padding.TooLongExactly | core/client.py:229-245 | A message is too long exactly above the largest plaintext, and the top rung fills 8192 characters exactly |
| Padding.LengthTellsRung | core/padding.py:103-130 | Two texts give tokens of one length exactly when they share a rung |

## Left out

- Sockets, threads and timeouts as the operating system provides them: a socket is a list of chunks and timeouts, a
  server thread one step per packet. Two clients that enter a room at the same instant, between looking up the names
  in use and joining (core/server.py:489-495), are not modelled, nor is the same gap in the test for 50 clients.
- AES-GCM, HKDF, HMAC, Argon2id and X25519: ideal terms. A public key that is another encoding of the same point,
  guessing of passwords and timing are not modelled.
- Packets as JSON: a packet is a value whose encoding is one line of known length.
- VoiceSessions.VoiceSession: holds its cipher's table and its buffers as the values that the classes VoiceCipher and
  JitterBuffer are proved to compute, not as references to such objects.
- VoiceSessions.VoiceSession.Play: hands out each peer's frame or its absence; concealment, mixing and the counters of
  silent and concealed frames are left out with the audio.
- VoiceSessions.VoiceSession.Incoming: leaves out the counters kept per peer, the echo and the round-trip measurements.
- VoiceRelays.VoiceRelay: holds participants as values, and the table by id names the client instead of sharing the
  participant object; the tables by client and by id are then inverse maps, and aliasing is not captured.
- ChatServers.ChatServer: keeps the two variables of each client's thread as a table by client; the rate limits on
  messages and key packets, history and snapshots are modelled on their own or not at all.
- ChatClients.ChatClient: stays in one room for a whole run and always has an interface to hand messages to; each of
  its methods runs through on one reading of the clock, and what the second thread may do in between is modelled in Inboxes.
- Inboxes.EveryRunKeeps: takes each delivery as one step. The code holds no lock across the name check and the look at
  the memory (core/client.py:629-663), so two threads that deliver the same message at the same instant could both
  find it new; that is not modelled.
- GateRuns.LoudFramesPass: says nothing for a hold shorter than the look-ahead, where the gate may close first.
- JitterConvergence.CatchUpConverges: speaks of a buffer without gaps that is fed one frame in order per pop.
- RelayRuns.Run: an arrival dated before the last one does not happen; the clock of the relay never goes back.
- The ValueErrors of constructors other than the jitter buffer's are preconditions.
- The password-derived voice cipher, the versions without encryption, and the encoding of the 18-byte voice header.
- Audio samples, loudness and codecs: loudness comes with the frame, and a fade is a mark on the output.
- The user interface in `apps/`, the programs in `tools/`, logging, ports and status reports: no protocol logic.
