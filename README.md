# Hangman sessions, gateway and privacy helpers

This project models three parts of the IPTV backend in Dafny:

- **The hangman session store** (`HangmanSessionService`). It is an in-memory table from
  session id to session record. Expiry is checked lazily on every read, and a one-shot
  cleanup runs after creation. The store binds phones to slot 1 and then slot 2, binds the
  TV, stores two two-to-twelve-letter words with their hints, counts points, advances the
  round, resets for a new game, releases a disconnected socket and ends a session.
  `SessionStore` is a class whose `sessions` map and its JavaScript `Map` iteration
  `order` are the fields the methods update. Each operation on one record is a pure
  function (`Join`, `SubmitTo`, `AddWin`, `Advance`, `Reset`, `Unbind`, ...). The session
  invariant `SessionInv` is proved to hold after every operation, and `SessionStore.Valid`
  is kept by every method.
- **The websocket gateway** (`setupHangmanWebSocket` and its handlers). `Gateway` holds
  the server's client list (`wss.clients`, each client tagged as the handlers tag it) and
  an outbox recording every `send` in order. Each handler is proved to append exactly the
  frames named by a reply function, and to leave the store as the store's own
  specification says. The routing lemmas then state who hears what. For example, the
  secret words reach TV clients only (an invariant of the outbox, `OutboxInv`), an error
  goes only to its sender, and a disconnect notice never goes to the closing socket.
- **The privacy helpers** (`privacy.js`): the region bucket of a country code, the consent
  check, the removal of personal fields, and the guard in front of hashing.

`Text` models the two string operations the code relies on:

- `String.prototype.toUpperCase`, for every character whose upper case contains a letter
  A to Z;
- the filter `/[^A-Z]/g`.

`Wrappers` holds `Option` and `Result`.

The model follows the code in these places:

- `createSession` does not check for an id collision. An existing entry is overwritten.
- The statuses `playing` and `ended` are never assigned.
- `waiting_for_players` can move straight to `ready`. A TV client that sends
  `submit-word` has no player number, so its word is stored in slot 2 (`SlotOf(None)`).
  Once player 1 has a word, this makes both words present while slot 2 is still empty.
- `game-complete` does not end the session.
- `submitWord` returns `bothWordsSubmitted` as the JavaScript value of
  `player1.word && player2.word`. That value is modelled as its truthiness. Stored words
  are never empty, so this is the same as "both words present". In the code the value is
  player 2's cleaned word itself, and the HTTP route that calls `submitWord` sends it back
  to the submitter. That route is not part of this model, so the statement that the
  secret words reach TV clients only is about the websocket gateway alone.

## Model

| member | source | states |
|---|---|---|
| HangmanSession.NewSession | iptv-smarters-backend/src/services/hangmanSession.js:19-39 | a new record has the given id and creation time, is waiting for players, is in round 1, has no TV, has two empty unconnected slots with score 0, and satisfies the session invariant |
| HangmanSession.SessionStore.constructor | iptv-smarters-backend/src/services/hangmanSession.js:5 | the store starts empty and valid |
| HangmanSession.SessionStore.CreateSession | iptv-smarters-backend/src/services/hangmanSession.js:17-45 | the new record is stored under its id, overwriting any entry with that id; a new id is appended to the iteration order |
| HangmanSession.Live | iptv-smarters-backend/src/services/hangmanSession.js:48-60 | a session is found exactly when it is present and at most 30 minutes old, and then it is the stored record |
| HangmanSession.ExpiryIsFinal | iptv-smarters-backend/src/services/hangmanSession.js:58-60 | `isExpired` is final: a session that is absent or expired at one time stays so at every later time |
| HangmanSession.Evicted | iptv-smarters-backend/src/services/hangmanSession.js:48-55 | a read deletes the entry exactly when it is present and expired, and otherwise changes nothing |
| HangmanSession.SessionStore.GetSession | iptv-smarters-backend/src/services/hangmanSession.js:48-55 | returns the live session or nothing; an expired entry is removed from the table and from the iteration order |
| HangmanSession.EvictIdempotent | iptv-smarters-backend/src/services/hangmanSession.js:48-55 | once a read has found nothing, reading again at the same time finds nothing and deletes nothing more |
| HangmanSession.CommitLive | iptv-smarters-backend/src/services/hangmanSession.js:48-55 | writing back a changed copy of a live session keeps it live, so the next read evicts nothing |
| HangmanSession.SessionStore.Sweep | iptv-smarters-backend/src/services/hangmanSession.js:63-71 | the deferred cleanup deletes the entry only when it is present and expired, so it is a no-op after `endSession` and safe to run again |
| HangmanSession.SessionStore.EndSession | iptv-smarters-backend/src/services/hangmanSession.js:212-214 | the id leaves the table and the iteration order; ending an absent id changes nothing |
| HangmanSession.Without | iptv-smarters-backend/src/services/hangmanSession.js:213 | the iteration order after a delete holds exactly the other ids and stays free of duplicates |
| HangmanSession.WithoutAppend | iptv-smarters-backend/src/services/hangmanSession.js:213 | deleting from a concatenation deletes from each part, so the ids left keep their relative order, as `Map.delete` keeps the iteration order of the rest |
| HangmanSession.Join | iptv-smarters-backend/src/services/hangmanSession.js:79-93 | refuses with "Session is full" exactly when both slots are connected; otherwise binds the first unconnected slot (1 before 2) to the socket and leaves the other slot alone; filling slot 2 moves `waiting_for_players` to `waiting_for_words`; preserves the invariant |
| HangmanSession.JoinResult | iptv-smarters-backend/src/services/hangmanSession.js:74-94 | `playerJoin` fails exactly when the session is not live or is full, and on success the number is 1 or 2 |
| HangmanSession.JoinOrder | iptv-smarters-backend/src/services/hangmanSession.js:74-94 | on a new session the first join gets slot 1, the second gets slot 2 and status `waiting_for_words` with both sockets bound, and the third is refused as full |
| HangmanSession.SessionStore.PlayerJoin | iptv-smarters-backend/src/services/hangmanSession.js:74-94 | returns the join result on the live session and stores the updated record; a missing session yields "Session not found" and only the eviction |
| HangmanSession.BindTv | iptv-smarters-backend/src/services/hangmanSession.js:101 | the TV socket becomes the given one (the last TV wins) and nothing else changes |
| HangmanSession.TvJoinResult | iptv-smarters-backend/src/services/hangmanSession.js:97-103 | `tvJoin` fails exactly when the session is not live |
| HangmanSession.SessionStore.TvJoin | iptv-smarters-backend/src/services/hangmanSession.js:97-103 | binds the TV of a live session and stores it; otherwise reports "Session not found" |
| HangmanSession.SlotOf | iptv-smarters-backend/src/services/hangmanSession.js:116 | the slot is 1 exactly when the player number is 1; anything else, `undefined` included, selects slot 2 |
| HangmanSession.CleanWord | iptv-smarters-backend/src/services/hangmanSession.js:111 | the cleaned word consists of letters A to Z only |
| HangmanSession.CleanWordIdempotent | iptv-smarters-backend/src/services/hangmanSession.js:111 | cleaning a cleaned word changes nothing |
| HangmanSession.CleanWordDropsNonLetters | iptv-smarters-backend/src/services/hangmanSession.js:111 | digits and punctuation are dropped and letters upper-cased ("Ca7!t" becomes "CAT") |
| HangmanSession.CleanWordSharpS | iptv-smarters-backend/src/services/hangmanSession.js:111 | a sharp s upper-cases to "SS" and so counts twice towards the length limit |
| HangmanSession.StoredHint | iptv-smarters-backend/src/services/hangmanSession.js:118 | the stored hint is at most 100 characters: the hint itself when short enough, its first 100 characters otherwise, and empty when missing |
| HangmanSession.Submit | iptv-smarters-backend/src/services/hangmanSession.js:116-124 | the slot gets the word and hint and the other slot is untouched; the status becomes `ready` exactly when both words are then present, and is kept otherwise; preserves the invariant for a valid word and a short hint |
| HangmanSession.SubmitTo | iptv-smarters-backend/src/services/hangmanSession.js:111-130 | rejects with "Word must be 2-12 letters" exactly when the cleaned word is shorter than 2 or longer than 12; on success it stores the cleaned word in the sender's slot, reports its length and whether both words are in, sets `ready` accordingly, leaves both scores unchanged and keeps the invariant |
| HangmanSession.SubmitStoresValidWord | iptv-smarters-backend/src/services/hangmanSession.js:111-118 | whatever the input, an accepted word is stored as 2 to 12 letters A to Z with a hint of at most 100 characters |
| HangmanSession.SubmitResult | iptv-smarters-backend/src/services/hangmanSession.js:106-131 | a missing or expired session gives "Session not found"; `submitWord` fails exactly when the session is not live or the cleaned word is not 2 to 12 letters; a success comes from a live session and keeps its identity |
| HangmanSession.SessionStore.SubmitWord | iptv-smarters-backend/src/services/hangmanSession.js:106-131 | returns the submit result on the live session and stores the updated record, or reports "Session not found" |
| HangmanSession.WordInfoOf | iptv-smarters-backend/src/services/hangmanSession.js:139-148 | each slot reports its own word; for a consistent slot the length is 0 exactly when there is no word and 2 to 12 otherwise, and the hint is at most 100 characters |
| HangmanSession.GameDataOf | iptv-smarters-backend/src/services/hangmanSession.js:138-149 | the game data of a `ready` session carries both words, each of 2 to 12 letters |
| HangmanSession.SubmitThenGameData | iptv-smarters-backend/src/services/hangmanSession.js:106-151 | after a successful submit, the game data read back shows the cleaned word, its length and the stored hint in the sender's slot, the other slot as it was, and the same round |
| HangmanSession.SessionStore.GetGameData | iptv-smarters-backend/src/services/hangmanSession.js:134-151 | returns the game data of a live session, or nothing |
| HangmanSession.Advance | iptv-smarters-backend/src/services/hangmanSession.js:158 | round 1 becomes 2 and round 2 becomes 1; nothing else changes |
| HangmanSession.SessionStore.NextRound | iptv-smarters-backend/src/services/hangmanSession.js:154-160 | advances the round of a live session and stores it, or returns nothing |
| HangmanSession.AddWin | iptv-smarters-backend/src/services/hangmanSession.js:166-171 | a win adds exactly one point to the chosen slot; nothing else changes, and no score goes down |
| HangmanSession.SessionStore.UpdateScore | iptv-smarters-backend/src/services/hangmanSession.js:163-173 | adds the point on a live session and stores it, or returns nothing |
| HangmanSession.Reset | iptv-smarters-backend/src/services/hangmanSession.js:180-186 | both words and hints are cleared, the round is 1 and the status `waiting_for_words`; connections and scores are kept |
| HangmanSession.SessionStore.ResetForNewGame | iptv-smarters-backend/src/services/hangmanSession.js:176-188 | resets a live session and stores it, or returns nothing |
| HangmanSession.ExampleGame | iptv-smarters-backend/src/services/hangmanSession.js:106-188 | two joins, "dog" then "ox" (ready), a win per round and a reset give scores 1 and 1, no words, round 1, and both players still connected |
| HangmanSession.MatchRole | iptv-smarters-backend/src/services/hangmanSession.js:193-205 | a socket id is tested against slot 1, then slot 2, then the TV, and matches nothing when none of them holds it |
| HangmanSession.Unbind | iptv-smarters-backend/src/services/hangmanSession.js:194-204 | a slot loses its connected flag and socket id but keeps its word, hint and score; the TV loses its socket id; preserves the invariant |
| HangmanSession.Owner | iptv-smarters-backend/src/services/hangmanSession.js:192-208 | a session reported for a socket id is in the table and holds that id in the reported role |
| HangmanSession.OwnerIsFirst | iptv-smarters-backend/src/services/hangmanSession.js:192-208 | the session found is the first in insertion order that holds the socket id, and nothing is found exactly when no session holds it |
| HangmanSession.SessionStore.FindOwner | iptv-smarters-backend/src/services/hangmanSession.js:192-208 | the loop over the sessions returns the first session, in insertion order, holding the socket id, expired or not |
| HangmanSession.SessionStore.PlayerDisconnect | iptv-smarters-backend/src/services/hangmanSession.js:191-209 | releases the binding found, changes no other session, and changes nothing when the socket is unknown |
| HangmanWs.AudiencesNest | iptv-smarters-backend/src/websocket/hangmanWs.js:253-275 | the TV and player filters select parts of the session filter, no client is both a TV and a player, a player filter only matches players 1 and 2, and excluding a socket id removes exactly that socket from a session broadcast |
| HangmanWs.FanoutUpToSound | iptv-smarters-backend/src/websocket/hangmanWs.js:253-275 | a broadcast sends only its frame, and only to clients that match the audience |
| HangmanWs.FanoutUpToComplete | iptv-smarters-backend/src/websocket/hangmanWs.js:253-275 | a broadcast reaches every client that matches the audience |
| HangmanWs.FanoutUpToOrdered | iptv-smarters-backend/src/websocket/hangmanWs.js:253-275 | a broadcast sends in client order, at most once per client |
| HangmanWs.FanoutExactly | iptv-smarters-backend/src/websocket/hangmanWs.js:253-275 | a delivery is in a broadcast exactly when its client matches the audience and its frame is the broadcast's, and deliveries follow client order |
| HangmanWs.Gateway.Broadcast | iptv-smarters-backend/src/websocket/hangmanWs.js:253-275 | the `forEach` loop appends exactly the broadcast's deliveries and keeps the secret-word invariant |
| HangmanWs.OutboxInvFanout | iptv-smarters-backend/src/websocket/hangmanWs.js:162-171 | a frame carrying the words that is broadcast to the TV audience reaches TV clients only |
| HangmanWs.Gateway.Send | iptv-smarters-backend/src/websocket/hangmanWs.js:12 | one frame goes to one client; a frame carrying the words is never sent this way |
| HangmanWs.Gateway.constructor | iptv-smarters-backend/src/websocket/hangmanWs.js:4 | the gateway starts with no clients and nothing sent, on a valid store |
| HangmanWs.Gateway.OnConnection | iptv-smarters-backend/src/websocket/hangmanWs.js:5-23 | a connection without a session id gets "Session ID required" and changes no session; a `tv` connection goes to the TV handler; any other type goes to the mobile handler |
| HangmanWs.Gateway.HandleTvConnection | iptv-smarters-backend/src/websocket/hangmanWs.js:51-74 | the TV is tagged and sent the state snapshot, or sent the error; the store is as `tvJoin` leaves it |
| HangmanWs.Gateway.HandleMobileConnection | iptv-smarters-backend/src/websocket/hangmanWs.js:76-111 | the phone is tagged with its player number and gets the join replies, or gets the error untagged; the store is as `playerJoin` leaves it |
| HangmanWs.Gateway.AddClient | iptv-smarters-backend/src/websocket/hangmanWs.js:85-88 | the new socket joins the clients with its tags, and the client invariants are kept |
| HangmanWs.Gateway.AnnounceJoin | iptv-smarters-backend/src/websocket/hangmanWs.js:90-110 | sends the assignment, tells the TV who joined, and tells player 2 to wait while player 1 has no word |
| HangmanWs.MobileJoinRouting | iptv-smarters-backend/src/websocket/hangmanWs.js:76-111 | a refusal is one error frame to the newcomer; an assignment comes first and lets only player 1 enter a word at once; `player-joined` goes to exactly the session's TV clients; `wait-for-word` goes to the newcomer exactly when it is player 2 and slot 1 has no word |
| HangmanWs.Gateway.HandleMessage | iptv-smarters-backend/src/websocket/hangmanWs.js:113-128 | each message type runs its handler, with the outbox and store effects stated per type; an unknown or unparseable message sends nothing and changes nothing |
| HangmanWs.Gateway.HandleWordSubmit | iptv-smarters-backend/src/websocket/hangmanWs.js:130-179 | the store is as `submitWord` leaves it, and exactly the submit replies are sent |
| HangmanWs.Gateway.AnnounceSubmitted | iptv-smarters-backend/src/websocket/hangmanWs.js:140-178 | the success path sends the word replies, then the ready replies when both words are in, and leaves the store as it found it |
| HangmanWs.Gateway.AnnounceWord | iptv-smarters-backend/src/websocket/hangmanWs.js:140-159 | acknowledges the word to the sender, sends its length to the TV, and cues player 2 after player 1 |
| HangmanWs.Gateway.AnnounceReady | iptv-smarters-backend/src/websocket/hangmanWs.js:161-178 | sends the game data read back from the store to the TV, then `game-started` to the whole session |
| HangmanWs.SubmitRouting | iptv-smarters-backend/src/websocket/hangmanWs.js:130-178 | an error goes to the sender alone; `word-submitted` goes to TV clients only; `your-turn` goes to exactly the session's player-2 clients, and only after player 1 submits; the words go to exactly the session's TV clients, and only once both are in |
| HangmanWs.Gateway.HandleRoundComplete | iptv-smarters-backend/src/websocket/hangmanWs.js:181-215 | the store ends up with the guesser's point and, after round 1, round 2; exactly the round replies are sent |
| HangmanWs.Gateway.ScoreRound | iptv-smarters-backend/src/websocket/hangmanWs.js:184-190 | the point is counted when `winner` is set, and the session read back is the scored session, or nothing when it is not live |
| HangmanWs.Gateway.FinishRound | iptv-smarters-backend/src/websocket/hangmanWs.js:192-214 | after round 1 the round advances and the TV gets `new-round`; after round 2 everyone gets `game-complete`, with the scores as read |
| HangmanWs.RoundRouting | iptv-smarters-backend/src/websocket/hangmanWs.js:181-215 | nothing is sent for a missing session; after round 1 `new-round` goes to exactly the session's TV clients, and after round 2 `game-complete` goes to exactly the session's open clients, with the scores after the point was counted |
| HangmanWs.Gateway.HandlePlayAgain | iptv-smarters-backend/src/websocket/hangmanWs.js:217-238 | the store is as `resetForNewGame` leaves it; the new-game frames are sent only when a session was reset |
| HangmanWs.Gateway.AnnounceNewGame | iptv-smarters-backend/src/websocket/hangmanWs.js:221-237 | sends `enter-words` to the session, then the cue to player 1, then the wait to player 2 |
| HangmanWs.PlayAgainRouting | iptv-smarters-backend/src/websocket/hangmanWs.js:217-238 | nothing is sent for a missing session; every `enter-words` precedes every `your-turn`, which precedes every `wait-for-word`; the cue to enter goes to player-1 clients only and the wait to player-2 clients only |
| HangmanWs.Gateway.HandleQuit | iptv-smarters-backend/src/websocket/hangmanWs.js:240-246 | the session leaves the store and `session-ended` is broadcast |
| HangmanWs.QuitRouting | iptv-smarters-backend/src/websocket/hangmanWs.js:240-246 | `session-ended` reaches every open client tagged with the session, and no other client |
| HangmanWs.Gateway.OnClose | iptv-smarters-backend/src/websocket/hangmanWs.js:26-37 | the socket leaves the open clients; an untagged socket changes nothing; otherwise the store releases the first binding holding the socket id and the rest of that session is told |
| HangmanWs.CloseRouting | iptv-smarters-backend/src/websocket/hangmanWs.js:26-37 | the disconnect notice reaches exactly the other open clients of the released session, never the closing socket; nothing is sent when no session held it |
| Text.UpperChar | iptv-smarters-backend/src/services/hangmanSession.js:111 | one character's upper case has no letter a to z left; a to z become A to Z and every other ASCII character is kept |
| Text.UpperCase | iptv-smarters-backend/src/utils/privacy.js:49 | `toUpperCase` leaves no letter a to z, never shortens a string, and keeps the length of an ASCII string |
| Text.KeepLatinUpper | iptv-smarters-backend/src/services/hangmanSession.js:111 | `replace(/[^A-Z]/g, '')` yields only letters A to Z and never lengthens a string |
| Text.KeepLatinUpperMembers | iptv-smarters-backend/src/services/hangmanSession.js:111 | the filter keeps exactly the characters A to Z of its input |
| Text.UpperCaseIdempotent | iptv-smarters-backend/src/utils/privacy.js:49 | upper-casing twice is the same as upper-casing once |
| Text.UpperCaseOfLatinUpper | iptv-smarters-backend/src/services/hangmanSession.js:111 | a string of letters A to Z is its own upper case |
| Text.KeepLatinUpperOfLatinUpper | iptv-smarters-backend/src/services/hangmanSession.js:111 | the filter keeps a string of letters A to Z unchanged |
| Privacy.RegionBucket | iptv-smarters-backend/src/utils/privacy.js:26-50 | a missing or empty code gives `other`; otherwise the upper-cased code's table entry, or `other` when the table has none |
| Privacy.RegionBucketRange | iptv-smarters-backend/src/utils/privacy.js:29-49 | the result is one of the seven buckets the table uses, never `us_west` |
| Privacy.RegionBucketCaseInsensitive | iptv-smarters-backend/src/utils/privacy.js:49 | a code and its upper-cased form fall in the same bucket |
| Privacy.RegionBucketUs | iptv-smarters-backend/src/utils/privacy.js:31 | "US" is `us_east` |
| Privacy.RegionBucketDe | iptv-smarters-backend/src/utils/privacy.js:34 | "DE" and "de" are `eu_west` |
| Privacy.RegionBucketRuIn | iptv-smarters-backend/src/utils/privacy.js:37-39 | "RU" is `eu_east` and "IN" is `apac` |
| Privacy.RegionBucketBrTr | iptv-smarters-backend/src/utils/privacy.js:42-45 | "BR" is `latam` and "TR" is `mena` |
| Privacy.RegionBucketUnmapped | iptv-smarters-backend/src/utils/privacy.js:49 | a code missing from the table is `other` |
| Privacy.ValidateConsent | iptv-smarters-backend/src/utils/privacy.js:53-57 | the result is truthy exactly when the consent is truthy, its opt-in is exactly `true` and its timestamp is truthy |
| Privacy.SanitizeData | iptv-smarters-backend/src/utils/privacy.js:60-72 | a key survives exactly when it is not a personal field holding a truthy value, and every surviving key keeps its value |
| Privacy.HashData | iptv-smarters-backend/src/utils/privacy.js:15-18 | a falsy input gives `null`; any other input gives the digest |

## Left out

- Sockets, the HTTP upgrade and JSON are not modelled. The query parameters arrive as
  `Option<string>`, and a message arrives already decoded as a `Message`; `Unparseable`
  stands for a frame whose JSON parse fails. The outbox records frames, not their JSON
  text.
- Randomness is not modelled: `generateSessionId` and `generateSocketId` are not part of
  this model, and the ids they would produce are parameters.
- `generateAnonUserId` is not modelled, because it only returns a random UUID.
- `Date.now()` is the parameter `now`.
- The `setTimeout` of `scheduleCleanup` is `SessionStore.Sweep`, called with the time at
  which it fires. The scheduling itself, 31 minutes after creation, is not modelled: the
  caller passes that time. At that time a session that was neither ended nor overwritten
  has expired, so the sweep deletes it.
- `getAllSessions` is not modelled, because it is a debugging accessor with no logic.
- Console logging is not modelled.
- Session records are values, so the model does not capture aliasing. In the code,
  `getSession` hands out the stored object itself and the handlers read it after later
  calls; every place where this matters re-reads the store in the same order as the code.
- SubmitTo: a word or hint that is not a string is not modelled, because the code would
  throw on `toUpperCase` or `substring`. A hint is `Option<string>`, with `None` for a
  missing or falsy hint.
- Privacy.RegionBucket: a country code that is not a string is not modelled, because
  `toUpperCase` would throw.
- StoredHint: lengths are counted in Unicode scalar values, not in UTF-16 code units as
  `substring` counts them. The two differ only for hints with characters outside the
  Basic Multilingual Plane.
- Text.UpperCase: only characters whose upper case contains a letter A to Z are mapped;
  every other character is kept as it stands. Both uses (the region lookup and the
  `[^A-Z]` filter) give the same outcome as the full Unicode mapping, since neither can
  see any other upper-case character.
- AddWin: a score is an unbounded natural number, not a JavaScript number with limited
  precision.
- HangmanWs.Gateway.HandleMessage: `winner` is reduced to its truthiness and `guesser` to
  an optional integer; any other value of `guesser` acts like `undefined` and selects
  slot 2.
- HangmanWs.Gateway.HandleMessage: requires the sender to be an open client. In the code,
  a socket refused by `tvJoin` or `playerJoin` still gets the message handler while it
  closes, and a message arriving in that window would act on the session in its query
  string. That window is not modelled.
- Privacy.Value: `NaN` and arrays are not modelled, because the helpers receive parsed JSON
  request bodies and JSON has no `NaN`. Arrays are objects for every test the helpers
  make. `NaN` would be falsy: `hashData` would return `null` for it, `validateConsent`
  would reject a `NaN` timestamp, and `sanitizeData` would keep a `NaN` personal field.
- Privacy.HashData: the SHA-256 digest of the input joined to `SECRET_KEY` is the
  parameter `sha256`. The hash function and the environment are not part of this model.
- HangmanWs.Gateway.AnnounceReady: `getGameData` is read at the same time as the
  `submitWord` before it, while the code reads `Date.now()` again. If the session
  expires between the two reads, the code gets `null` and throws at
  `gameData.player1Word`. The message handler catches the error, so neither `game-ready`
  nor `game-started` is sent and the session is deleted. The model cannot show this.
- HangmanWs.Gateway.ScoreRound and HangmanWs.Gateway.FinishRound: `updateScore`,
  `getSession` and `nextRound` are read at one time. In the code each reads the clock
  again, so `nextRound` could find the session expired after the point was counted, and
  `new-round` would still be broadcast. The model cannot show this.
