/** The hangman realtime gateway: which connected client receives which frame when a
    connection opens, when a message arrives and when a connection closes. Sockets are
    records in a sequence; every frame sent is appended to an outbox. */
module HangmanWs {
  import opened Wrappers
  import opened HangmanSession

  const SESSION_ID_REQUIRED: string := "Session ID required"
  const PLAYER1_SUBMITTED: string := "Player 1 submitted. Enter your word!"
  const LOOK_AT_TV: string := "Look at the TV!"
  const ENTER_NEW_WORDS: string := "Enter your new words!"
  const GAME_ENDED: string := "Game ended"

  datatype ClientType = TvClient | MobileClient

  /** The fields the gateway tags a socket with, and whether the server still lists it
      among its clients. `None` stands for a field that was never assigned. */
  datatype Client = Client(
    socketId: Option<string>,
    sessionId: Option<string>,
    clientType: Option<ClientType>,
    playerNumber: Option<int>,
    open: bool)

  /** A connection that was answered with an error and closed without being tagged. */
  const Rejected: Client := Client(None, None, None, None, false)

  /** The frames the gateway sends, one constructor per `type`. In `Assigned` and
      `WordSubmitted` a `None` is the JSON `null` or a missing `playerNumber`; in
      `PlayerDisconnected` a `None` leaver and an `isTV` of `false` stand for a field the
      code leaves `undefined`, which `JSON.stringify` omits. */
  datatype Frame =
    | ErrorFrame(message: string)
    | SessionState(status: Status, player1Connected: bool, player2Connected: bool,
                   player1WordSubmitted: bool, player2WordSubmitted: bool)
    | Assigned(playerNumber: int, canEnterWord: bool, waitingFor: Option<int>)
    | PlayerJoined(playerNumber: int)
    | WaitForWord(waitingForPlayer: int)
    | WordAccepted(acceptedLength: nat)
    | WordSubmitted(submitter: Option<int>, submittedLength: nat)
    | YourTurn(message: string)
    | YourTurnCanEnter(canEnterWord: bool)
    | GameReady(player1Word: WordInfo, player2Word: WordInfo, currentRound: int)
    | GameStarted(message: string)
    | NewRound(round: int, player1Score: nat, player2Score: nat)
    | GameComplete(player1Score: nat, player2Score: nat)
    | EnterWords(message: string)
    | SessionEnded(message: string)
    | PlayerDisconnected(leaver: Option<int>, isTV: bool)

  /** An inbound frame after `JSON.parse`: the four handled types, any other or missing
      `type`, and text that does not parse. */
  datatype Message =
    | SubmitWordMsg(word: string, hint: Option<string>)
    | RoundCompleteMsg(winner: bool, guesser: Option<int>)
    | PlayAgainMsg
    | QuitMsg
    | UnknownMsg
    | Unparseable

  datatype Delivery = Delivery(client: nat, frame: Frame)

  /** The recipients of the three broadcast helpers. */
  datatype Audience =
    | SessionAudience(sessionId: string, exclude: Option<string>)
    | TvAudience(sessionId: string)
    | PlayerAudience(sessionId: string, playerNumber: int)

  /** A client receives a broadcast when it is still listed, is tagged with the session and
      passes the helper's own test. The excluded id of a session broadcast defaults to
      `null`, written `None`, which no socket id equals: an untagged socket's id is
      `undefined`, not `null`. */
  predicate Hears(c: Client, a: Audience) {
    && c.open
    && c.sessionId == Some(a.sessionId)
    && match a
       case SessionAudience(_, exclude) => exclude.None? || c.socketId != exclude
       case TvAudience(_) => c.clientType == Some(TvClient)
       case PlayerAudience(_, n) => c.playerNumber == Some(n)
  }

  /** How the three filters relate for a consistently tagged client: the TV and player
      audiences lie inside the whole session's, no client is both a TV and a player, the
      excluded socket never hears a session broadcast, and every other listener does. */
  lemma AudiencesNest(c: Client, sessionId: string, n: int, excluded: string)
    requires ClientInv(c)
    ensures Hears(c, TvAudience(sessionId)) ==> Hears(c, SessionAudience(sessionId, None))
    ensures Hears(c, PlayerAudience(sessionId, n)) ==> Hears(c, SessionAudience(sessionId, None))
    ensures !(Hears(c, TvAudience(sessionId)) && Hears(c, PlayerAudience(sessionId, n)))
    ensures Hears(c, PlayerAudience(sessionId, n)) ==> n == 1 || n == 2
    ensures Hears(c, SessionAudience(sessionId, Some(excluded))) <==>
      Hears(c, SessionAudience(sessionId, None)) && c.socketId != Some(excluded)
  {
    if Hears(c, PlayerAudience(sessionId, n)) {
      assert c.clientType.value == MobileClient;
    }
  }

  /** The deliveries of one broadcast over the first `n` clients, in client order. */
  function FanoutUpTo(clients: seq<Client>, a: Audience, f: Frame, n: nat): seq<Delivery>
    requires n <= |clients|
  {
    if n == 0 then []
    else FanoutUpTo(clients, a, f, n - 1) + (if Hears(clients[n - 1], a) then [Delivery(n - 1, f)] else [])
  }

  /** The deliveries of one broadcast. */
  function Fanout(clients: seq<Client>, a: Audience, f: Frame): seq<Delivery> {
    FanoutUpTo(clients, a, f, |clients|)
  }

  /** Every delivery in `r` is `f`, to one of the first `n` clients, in the audience. */
  predicate HeardBy(clients: seq<Client>, a: Audience, f: Frame, n: nat, r: seq<Delivery>)
    requires n <= |clients|
  {
    forall j :: 0 <= j < |r| ==> r[j].client < n && r[j].frame == f && Hears(clients[r[j].client], a)
  }

  /** The deliveries in `r` go to strictly increasing clients. */
  predicate Increasing(r: seq<Delivery>) {
    forall j1, j2 :: 0 <= j1 < j2 < |r| ==> r[j1].client < r[j2].client
  }

  /** Only clients in the audience are sent to, and only `f`. */
  lemma {:induction false} FanoutUpToSound(clients: seq<Client>, a: Audience, f: Frame, n: nat)
    requires n <= |clients|
    ensures HeardBy(clients, a, f, n, FanoutUpTo(clients, a, f, n))
  {
    if n > 0 {
      FanoutUpToSound(clients, a, f, n - 1);
      var prev := FanoutUpTo(clients, a, f, n - 1);
      var tail := if Hears(clients[n - 1], a) then [Delivery(n - 1, f)] else [];
      var r := FanoutUpTo(clients, a, f, n);
      assert r == prev + tail;
      forall j | 0 <= j < |r|
        ensures r[j].client < n && r[j].frame == f && Hears(clients[r[j].client], a)
      {
        if j < |prev| {
          assert r[j] == prev[j];
        } else {
          assert r[j] == tail[j - |prev|];
        }
      }
    }
  }

  /** Every client in the audience is sent to. */
  lemma {:induction false} FanoutUpToComplete(clients: seq<Client>, a: Audience, f: Frame, n: nat)
    requires n <= |clients|
    ensures forall k :: 0 <= k < n && Hears(clients[k], a) ==> Delivery(k, f) in FanoutUpTo(clients, a, f, n)
  {
    if n > 0 {
      FanoutUpToComplete(clients, a, f, n - 1);
    }
  }

  /** Clients are visited in order, so no client is sent to twice. */
  lemma {:induction false} FanoutUpToOrdered(clients: seq<Client>, a: Audience, f: Frame, n: nat)
    requires n <= |clients|
    ensures Increasing(FanoutUpTo(clients, a, f, n))
  {
    if n > 0 {
      FanoutUpToOrdered(clients, a, f, n - 1);
      FanoutUpToSound(clients, a, f, n - 1);
      var prev := FanoutUpTo(clients, a, f, n - 1);
      var tail := if Hears(clients[n - 1], a) then [Delivery(n - 1, f)] else [];
      var r := FanoutUpTo(clients, a, f, n);
      assert r == prev + tail;
      forall j1, j2 | 0 <= j1 < j2 < |r|
        ensures r[j1].client < r[j2].client
      {
        assert r[j1] == prev[j1];
        if j2 < |prev| {
          assert r[j2] == prev[j2];
        } else {
          assert r[j2] == tail[j2 - |prev|];
        }
      }
    }
  }

  /** A broadcast reaches exactly the open clients of the audience, each once. */
  lemma FanoutExactly(clients: seq<Client>, a: Audience, f: Frame)
    ensures forall d: Delivery :: d in Fanout(clients, a, f) <==> d.client < |clients| && d.frame == f && Hears(clients[d.client], a)
    ensures Increasing(Fanout(clients, a, f))
  {
    var r := FanoutUpTo(clients, a, f, |clients|);
    assert r == Fanout(clients, a, f);
    FanoutUpToSound(clients, a, f, |clients|);
    FanoutUpToComplete(clients, a, f, |clients|);
    FanoutUpToOrdered(clients, a, f, |clients|);
    forall d: Delivery | d in r
      ensures d.client < |clients| && d.frame == f && Hears(clients[d.client], a)
    {
      var j :| 0 <= j < |r| && r[j] == d;
      assert r[j].client < |clients| && r[j].frame == f && Hears(clients[r[j].client], a);
    }
    forall d: Delivery | d.client < |clients| && d.frame == f && Hears(clients[d.client], a)
      ensures d in r
    {
      assert d == Delivery(d.client, f);
    }
  }

  // ---------------------------------------------------------------------------------
  // Invariants

  predicate ClientInv(c: Client) {
    && (c.sessionId.Some? <==> c.socketId.Some?)
    && (c.sessionId.Some? <==> c.clientType.Some?)
    && (c.clientType == Some(TvClient) ==> c.playerNumber.None?)
    && (c.clientType == Some(MobileClient) ==> c.playerNumber == Some(1) || c.playerNumber == Some(2))
    && (c.open ==> c.sessionId.Some?)
  }

  predicate ClientsInv(clients: seq<Client>) {
    forall k :: 0 <= k < |clients| ==> ClientInv(clients[k])
  }

  /** The only frame that carries the secret words. */
  predicate RevealsWord(f: Frame) {
    f.GameReady?
  }

  /** Every delivery names a known client, and a frame with the words only ever went to a
      client tagged as a TV: the players never see them. */
  predicate OutboxInv(clients: seq<Client>, outbox: seq<Delivery>) {
    forall j :: 0 <= j < |outbox| ==>
      outbox[j].client < |clients| &&
      (RevealsWord(outbox[j].frame) ==> clients[outbox[j].client].clientType == Some(TvClient))
  }

  lemma ClientsInvAppend(clients: seq<Client>, c: Client)
    requires ClientsInv(clients) && ClientInv(c)
    ensures ClientsInv(clients + [c])
  {
    forall k | 0 <= k < |clients| + 1
      ensures ClientInv((clients + [c])[k])
    {
      if k < |clients| {
        assert (clients + [c])[k] == clients[k];
      }
    }
  }

  /** Clients are only appended or closed, never re-tagged, so earlier deliveries keep
      their meaning. */
  lemma OutboxInvGrow(c1: seq<Client>, c2: seq<Client>, outbox: seq<Delivery>)
    requires OutboxInv(c1, outbox)
    requires |c1| <= |c2| && forall k :: 0 <= k < |c1| ==> c2[k].clientType == c1[k].clientType
    ensures OutboxInv(c2, outbox)
  {
  }

  /** A broadcast keeps the outbox invariant as long as a frame with the words is only
      broadcast to the TV audience. */
  lemma OutboxInvFanout(clients: seq<Client>, outbox: seq<Delivery>, a: Audience, f: Frame)
    requires OutboxInv(clients, outbox)
    requires RevealsWord(f) ==> a.TvAudience?
    ensures OutboxInv(clients, outbox + Fanout(clients, a, f))
  {
    var r := FanoutUpTo(clients, a, f, |clients|);
    assert r == Fanout(clients, a, f);
    FanoutUpToSound(clients, a, f, |clients|);
    var o := outbox + r;
    forall j | 0 <= j < |o|
      ensures o[j].client < |clients| &&
        (RevealsWord(o[j].frame) ==> clients[o[j].client].clientType == Some(TvClient))
    {
      if j >= |outbox| {
        assert o[j] == r[j - |outbox|];
        assert r[j - |outbox|].client < |clients| && Hears(clients[r[j - |outbox|].client], a);
      } else {
        assert o[j] == outbox[j];
      }
    }
  }

  // ---------------------------------------------------------------------------------
  // What each handler sends, as a function of the clients and the store's answer

  function StateFrame(s: Session): Frame {
    SessionState(s.status, s.player1.connected, s.player2.connected, s.player1.word.Some?, s.player2.word.Some?)
  }

  function TvClientAfter(sessionId: string, socketId: string, r: Result<Session>): Client {
    if r.Ok? then Client(Some(socketId), Some(sessionId), Some(TvClient), None, true) else Rejected
  }

  function TvConnectReplies(index: nat, r: Result<Session>): seq<Delivery> {
    if r.Err? then [Delivery(index, ErrorFrame(r.error))]
    else [Delivery(index, StateFrame(r.value))]
  }

  function MobileClientAfter(sessionId: string, socketId: string, r: Result<Joined>): Client {
    if r.Ok? then Client(Some(socketId), Some(sessionId), Some(MobileClient), Some(r.value.playerNumber), true)
    else Rejected
  }

  function AssignedFrame(n: int): Frame {
    Assigned(n, n == 1, if n == 2 then Some(1) else None)
  }

  function MobileConnectReplies(clients: seq<Client>, index: nat, sessionId: string, r: Result<Joined>): seq<Delivery> {
    if r.Err? then [Delivery(index, ErrorFrame(r.error))]
    else
      JoinReplies(clients, index, sessionId, r.value.playerNumber, r.value.session.player1.word.None?)
  }

  /** A seated player learns its number, the TV learns who joined, and player 2 is told to
      wait while player 1 has no word yet. */
  function JoinReplies(clients: seq<Client>, index: nat, sessionId: string, n: int, firstWordMissing: bool): seq<Delivery> {
    [Delivery(index, AssignedFrame(n))]
    + Fanout(clients, TvAudience(sessionId), PlayerJoined(n))
    + (if n == 2 && firstWordMissing then [Delivery(index, WaitForWord(1))] else [])
  }

  function GameReadyFrame(s: Session): Frame {
    var g := GameDataOf(s);
    GameReady(g.player1Word, g.player2Word, g.currentRound)
  }

  /** What a valid word brings: the acknowledgement to the sender, the length to the TV,
      and player 2's cue once player 1 has submitted. */
  function WordReplies(clients: seq<Client>, sender: nat, sessionId: string, playerNumber: Option<int>,
                       wordLength: nat): seq<Delivery> {
    [Delivery(sender, WordAccepted(wordLength))]
    + Fanout(clients, TvAudience(sessionId), WordSubmitted(playerNumber, wordLength))
    + (if playerNumber == Some(1)
       then Fanout(clients, PlayerAudience(sessionId, 2), YourTurn(PLAYER1_SUBMITTED)) else [])
  }

  /** What the second word brings: the words to the TV, then the start to everyone. */
  function ReadyReplies(clients: seq<Client>, sessionId: string, s: Session): seq<Delivery> {
    Fanout(clients, TvAudience(sessionId), GameReadyFrame(s))
    + Fanout(clients, SessionAudience(sessionId, None), GameStarted(LOOK_AT_TV))
  }

  function SubmitReplies(clients: seq<Client>, sender: nat, sessionId: string, playerNumber: Option<int>,
                         r: Result<Submitted>): seq<Delivery> {
    if r.Err? then [Delivery(sender, ErrorFrame(r.error))]
    else
      WordReplies(clients, sender, sessionId, playerNumber, r.value.wordLength)
      + (if r.value.bothWordsSubmitted then ReadyReplies(clients, sessionId, r.value.session) else [])
  }

  /** The session as `round-complete` leaves it: the guesser's win counted when `winner`
      is set, then round 1 advanced to round 2. */
  function AfterRound(s: Session, winner: bool, guesser: Option<int>): Session {
    var scored := AddWin(s, SlotOf(guesser), winner);
    if scored.currentRound == 1 then Advance(scored) else scored
  }

  function RoundReplies(clients: seq<Client>, sessionId: string, live: Option<Session>,
                        winner: bool, guesser: Option<int>): seq<Delivery> {
    if live.None? then []
    else RoundAnnouncement(clients, sessionId, AddWin(live.value, SlotOf(guesser), winner))
  }

  /** After round 1 the TV gets the scores and round 2 begins; after round 2 everyone gets
      the final scores. */
  function RoundAnnouncement(clients: seq<Client>, sessionId: string, s: Session): seq<Delivery> {
    if s.currentRound == 1
    then Fanout(clients, TvAudience(sessionId), NewRound(2, s.player1.score, s.player2.score))
    else Fanout(clients, SessionAudience(sessionId, None), GameComplete(s.player1.score, s.player2.score))
  }

  function NewGameReplies(clients: seq<Client>, sessionId: string): seq<Delivery> {
    Fanout(clients, SessionAudience(sessionId, None), EnterWords(ENTER_NEW_WORDS))
    + Fanout(clients, PlayerAudience(sessionId, 1), YourTurnCanEnter(true))
    + Fanout(clients, PlayerAudience(sessionId, 2), WaitForWord(1))
  }

  function PlayAgainReplies(clients: seq<Client>, sessionId: string, live: Option<Session>): seq<Delivery> {
    if live.None? then [] else NewGameReplies(clients, sessionId)
  }

  function QuitReplies(clients: seq<Client>, sessionId: string): seq<Delivery> {
    Fanout(clients, SessionAudience(sessionId, None), SessionEnded(GAME_ENDED))
  }

  function DisconnectFrame(role: Role): Frame {
    match role
    case Player1 => PlayerDisconnected(Some(1), false)
    case Player2 => PlayerDisconnected(Some(2), false)
    case Tv => PlayerDisconnected(None, true)
  }

  function CloseReplies(clients: seq<Client>, socketId: string, found: Option<(string, Role)>): seq<Delivery> {
    if found.None? then []
    else Fanout(clients, SessionAudience(found.value.0, Some(socketId)), DisconnectFrame(found.value.1))
  }

  /** The table after `round-complete` read the session at `now`. */
  function RoundSessions(m: map<string, Session>, id: string, now: int, winner: bool,
                         guesser: Option<int>): map<string, Session> {
    var live := Live(m, id, now);
    Commit(m, id, now, if live.Some? then Some(AfterRound(live.value, winner, guesser)) else None)
  }

  function ResetSessions(m: map<string, Session>, id: string, now: int): map<string, Session> {
    var live := Live(m, id, now);
    Commit(m, id, now, if live.Some? then Some(Reset(live.value)) else None)
  }

  // ---------------------------------------------------------------------------------
  // Who receives what

  /** `submit-word`: an error goes to the sender alone; `word-submitted` only to the TV;
      `your-turn` to exactly the open player-2 clients of the session, and only after
      player 1 submits; the words to exactly the open TV clients of the session, and only
      once both are in. */
  lemma SubmitRouting(clients: seq<Client>, sender: nat, sessionId: string, playerNumber: Option<int>,
                      r: Result<Submitted>)
    ensures var out := SubmitReplies(clients, sender, sessionId, playerNumber, r);
      forall d :: d in out && d.frame.ErrorFrame? ==> r.Err? && d.client == sender
    ensures var out := SubmitReplies(clients, sender, sessionId, playerNumber, r);
      forall d :: d in out && d.frame.WordSubmitted? ==>
        d.client < |clients| && Hears(clients[d.client], TvAudience(sessionId))
    ensures var out := SubmitReplies(clients, sender, sessionId, playerNumber, r);
      forall d :: d in out && d.frame.YourTurn? ==>
        r.Ok? && playerNumber == Some(1) && d.client < |clients| && Hears(clients[d.client], PlayerAudience(sessionId, 2))
    ensures r.Ok? && playerNumber == Some(1) ==>
      forall k :: 0 <= k < |clients| && Hears(clients[k], PlayerAudience(sessionId, 2)) ==>
        Delivery(k, YourTurn(PLAYER1_SUBMITTED)) in SubmitReplies(clients, sender, sessionId, playerNumber, r)
    ensures var out := SubmitReplies(clients, sender, sessionId, playerNumber, r);
      forall d :: d in out && RevealsWord(d.frame) ==>
        && r.Ok? && r.value.bothWordsSubmitted && d.frame == GameReadyFrame(r.value.session)
        && d.client < |clients| && Hears(clients[d.client], TvAudience(sessionId))
    ensures r.Ok? && r.value.bothWordsSubmitted ==>
      forall k :: 0 <= k < |clients| && Hears(clients[k], TvAudience(sessionId)) ==>
        Delivery(k, GameReadyFrame(r.value.session)) in SubmitReplies(clients, sender, sessionId, playerNumber, r)
  {
    if r.Ok? {
      FanoutExactly(clients, TvAudience(sessionId), WordSubmitted(playerNumber, r.value.wordLength));
      FanoutExactly(clients, PlayerAudience(sessionId, 2), YourTurn(PLAYER1_SUBMITTED));
      FanoutExactly(clients, TvAudience(sessionId), GameReadyFrame(r.value.session));
      FanoutExactly(clients, SessionAudience(sessionId, None), GameStarted(LOOK_AT_TV));
    }
  }

  /** A mobile join: a refusal is one error frame to the newcomer; a seated player's first
      frame is its assignment (only player 1 may enter a word at once, player 2 waits for
      player 1), the TV is told who joined, and the extra `wait-for-word` goes to the
      newcomer only as player 2 while slot 1 has no word. */
  lemma MobileJoinRouting(clients: seq<Client>, index: nat, sessionId: string, r: Result<Joined>)
    ensures r.Err? ==> MobileConnectReplies(clients, index, sessionId, r) == [Delivery(index, ErrorFrame(r.error))]
    ensures r.Ok? ==>
      var n := r.value.playerNumber;
      MobileConnectReplies(clients, index, sessionId, r)[0] == Delivery(index, Assigned(n, n == 1, if n == 2 then Some(1) else None))
    ensures var out := MobileConnectReplies(clients, index, sessionId, r);
      forall d :: d in out && d.frame.PlayerJoined? ==>
        r.Ok? && d.frame.playerNumber == r.value.playerNumber &&
        d.client < |clients| && Hears(clients[d.client], TvAudience(sessionId))
    ensures var out := MobileConnectReplies(clients, index, sessionId, r);
      forall d :: d in out && d.frame.WaitForWord? ==>
        r.Ok? && d.client == index && r.value.playerNumber == 2 && r.value.session.player1.word.None?
    ensures r.Ok? ==>
      forall k :: 0 <= k < |clients| && Hears(clients[k], TvAudience(sessionId)) ==>
        Delivery(k, PlayerJoined(r.value.playerNumber)) in MobileConnectReplies(clients, index, sessionId, r)
    ensures r.Ok? && r.value.playerNumber == 2 && r.value.session.player1.word.None? ==>
      Delivery(index, WaitForWord(1)) in MobileConnectReplies(clients, index, sessionId, r)
  {
    if r.Ok? {
      FanoutExactly(clients, TvAudience(sessionId), PlayerJoined(r.value.playerNumber));
    }
  }

  /** `round-complete`: nothing for a missing session; after round 1 only the TV clients
      hear of round 2; after round 2 every open client of the session gets the final scores. */
  lemma RoundRouting(clients: seq<Client>, sessionId: string, live: Option<Session>, winner: bool,
                     guesser: Option<int>)
    ensures live.None? ==> RoundReplies(clients, sessionId, live, winner, guesser) == []
    ensures var out := RoundReplies(clients, sessionId, live, winner, guesser);
      forall d :: d in out ==>
        && live.Some? && d.client < |clients|
        && var s := AddWin(live.value, SlotOf(guesser), winner);
           if s.currentRound == 1
           then d.frame == NewRound(2, s.player1.score, s.player2.score) && Hears(clients[d.client], TvAudience(sessionId))
           else d.frame == GameComplete(s.player1.score, s.player2.score) && Hears(clients[d.client], SessionAudience(sessionId, None))
    ensures live.Some? ==>
      var s := AddWin(live.value, SlotOf(guesser), winner);
      s.currentRound == 1 ==>
        forall k :: 0 <= k < |clients| && Hears(clients[k], TvAudience(sessionId)) ==>
          Delivery(k, NewRound(2, s.player1.score, s.player2.score)) in RoundReplies(clients, sessionId, live, winner, guesser)
    ensures live.Some? ==>
      var s := AddWin(live.value, SlotOf(guesser), winner);
      s.currentRound != 1 ==>
        forall k :: 0 <= k < |clients| && Hears(clients[k], SessionAudience(sessionId, None)) ==>
          Delivery(k, GameComplete(s.player1.score, s.player2.score)) in RoundReplies(clients, sessionId, live, winner, guesser)
  {
    if live.Some? {
      var s := AddWin(live.value, SlotOf(guesser), winner);
      FanoutExactly(clients, TvAudience(sessionId), NewRound(2, s.player1.score, s.player2.score));
      FanoutExactly(clients, SessionAudience(sessionId, None), GameComplete(s.player1.score, s.player2.score));
    }
  }

  /** The position of a `play-again` frame in its send order. */
  function NewGameRank(f: Frame): nat {
    if f.EnterWords? then 0 else if f.YourTurnCanEnter? then 1 else 2
  }

  predicate AllFrames(r: seq<Delivery>, f: Frame) {
    forall j :: 0 <= j < |r| ==> r[j].frame == f
  }

  lemma FanoutFrames(clients: seq<Client>, a: Audience, f: Frame)
    ensures AllFrames(Fanout(clients, a, f), f)
  {
    FanoutUpToSound(clients, a, f, |clients|);
  }

  /** `play-again`: nothing when the reset finds no session; otherwise every `enter-words`
      precedes every `your-turn`, which precedes every `wait-for-word`; the cue to enter a
      word reaches player-1 clients only, the cue to wait player-2 clients only. */
  lemma PlayAgainRouting(clients: seq<Client>, sessionId: string, live: Option<Session>)
    ensures live.None? ==> PlayAgainReplies(clients, sessionId, live) == []
    ensures var out := PlayAgainReplies(clients, sessionId, live);
      forall j1, j2 :: 0 <= j1 < j2 < |out| ==> NewGameRank(out[j1].frame) <= NewGameRank(out[j2].frame)
    ensures var out := PlayAgainReplies(clients, sessionId, live);
      forall d :: d in out && d.frame.YourTurnCanEnter? ==> d.client < |clients| && Hears(clients[d.client], PlayerAudience(sessionId, 1))
    ensures var out := PlayAgainReplies(clients, sessionId, live);
      forall d :: d in out && d.frame.WaitForWord? ==> d.client < |clients| && Hears(clients[d.client], PlayerAudience(sessionId, 2))
  {
    if live.Some? {
      var a := Fanout(clients, SessionAudience(sessionId, None), EnterWords(ENTER_NEW_WORDS));
      var b := Fanout(clients, PlayerAudience(sessionId, 1), YourTurnCanEnter(true));
      var c := Fanout(clients, PlayerAudience(sessionId, 2), WaitForWord(1));
      FanoutFrames(clients, SessionAudience(sessionId, None), EnterWords(ENTER_NEW_WORDS));
      FanoutFrames(clients, PlayerAudience(sessionId, 1), YourTurnCanEnter(true));
      FanoutFrames(clients, PlayerAudience(sessionId, 2), WaitForWord(1));
      FanoutExactly(clients, SessionAudience(sessionId, None), EnterWords(ENTER_NEW_WORDS));
      FanoutExactly(clients, PlayerAudience(sessionId, 1), YourTurnCanEnter(true));
      FanoutExactly(clients, PlayerAudience(sessionId, 2), WaitForWord(1));
      var out := a + b + c;
      assert out == PlayAgainReplies(clients, sessionId, live);
      forall j | 0 <= j < |out|
        ensures NewGameRank(out[j].frame) == if j < |a| then 0 else if j < |a| + |b| then 1 else 2
      {
        if j < |a| {
          assert out[j] == a[j];
        } else if j < |a| + |b| {
          assert out[j] == b[j - |a|];
        } else {
          assert out[j] == c[j - |a| - |b|];
        }
      }
    }
  }

  /** `quit`: every open client tagged with the session, and no other, is told it ended. */
  lemma QuitRouting(clients: seq<Client>, sessionId: string)
    ensures forall d: Delivery :: d in QuitReplies(clients, sessionId) <==>
      d.client < |clients| && d.frame == SessionEnded(GAME_ENDED) &&
      clients[d.client].open && clients[d.client].sessionId == Some(sessionId)
  {
    FanoutExactly(clients, SessionAudience(sessionId, None), SessionEnded(GAME_ENDED));
  }

  /** A close reaches exactly the other open clients of the session the socket was bound to,
      never the closing socket itself. */
  lemma CloseRouting(clients: seq<Client>, socketId: string, found: Option<(string, Role)>)
    ensures found.None? ==> CloseReplies(clients, socketId, found) == []
    ensures found.Some? ==> forall d: Delivery :: d in CloseReplies(clients, socketId, found) <==>
      && d.client < |clients| && d.frame == DisconnectFrame(found.value.1)
      && clients[d.client].open && clients[d.client].sessionId == Some(found.value.0)
      && clients[d.client].socketId != Some(socketId)
  {
    if found.Some? {
      FanoutExactly(clients, SessionAudience(found.value.0, Some(socketId)), DisconnectFrame(found.value.1));
    }
  }

  lemma Overwrite(m: map<string, Session>, k: string, a: Session, b: Session)
    ensures m[k := a][k := b] == m[k := b]
  {
  }

  lemma Concat3(a: seq<Delivery>, b: seq<Delivery>, c: seq<Delivery>)
    ensures a + b + c == a + (b + c)
  {
  }

  // ---------------------------------------------------------------------------------
  // The gateway

  class Gateway {
    /** The session store all handlers go through. */
    const store: SessionStore
    /** `wss.clients`, in the order `forEach` visits them. */
    var clients: seq<Client>
    /** Every `send`, in order: which client got which frame. */
    var outbox: seq<Delivery>

    ghost predicate Valid()
      reads this, store
    {
      store.Valid() && ClientsInv(clients) && OutboxInv(clients, outbox)
    }

    constructor (store: SessionStore)
      requires store.Valid()
      ensures Valid() && this.store == store && clients == [] && outbox == []
    {
      this.store := store;
      clients := [];
      outbox := [];
    }

    method Send(index: nat, f: Frame)
      requires index < |clients| && OutboxInv(clients, outbox) && !RevealsWord(f)
      modifies this`outbox
      ensures outbox == old(outbox) + [Delivery(index, f)]
      ensures OutboxInv(clients, outbox)
    {
      outbox := outbox + [Delivery(index, f)];
    }

    /** `broadcastToSession`, `broadcastToTV` and `broadcastToPlayer`: one `forEach` over
        the clients, sending `f` to those in `a`. */
    method Broadcast(a: Audience, f: Frame)
      requires OutboxInv(clients, outbox)
      requires RevealsWord(f) ==> a.TvAudience?
      modifies this`outbox
      ensures outbox == old(outbox) + Fanout(clients, a, f)
      ensures OutboxInv(clients, outbox)
    {
      for k := 0 to |clients|
        invariant outbox == old(outbox) + FanoutUpTo(clients, a, f, k)
      {
        if Hears(clients[k], a) {
          outbox := outbox + [Delivery(k, f)];
        }
      }
      OutboxInvFanout(clients, old(outbox), a, f);
    }

    /** A connection arrives with its `session` and `type` query parameters. */
    method OnConnection(session: Option<string>, clientType: Option<string>, socketId: string, now: int)
      returns (index: nat)
      requires Valid()
      modifies this, store
      ensures Valid()
      ensures index == |old(clients)| && |clients| == index + 1 && clients[..index] == old(clients)
      ensures session.None? || session == Some("") ==>
        && clients[index] == Rejected
        && outbox == old(outbox) + [Delivery(index, ErrorFrame(SESSION_ID_REQUIRED))]
        && store.sessions == old(store.sessions) && store.order == old(store.order)
      ensures session.Some? && session != Some("") && clientType == Some("tv") ==>
        var r := TvJoinResult(old(store.sessions), session.value, socketId, now);
        && clients[index] == TvClientAfter(session.value, socketId, r)
        && outbox == old(outbox) + TvConnectReplies(index, r)
        && store.sessions == Commit(old(store.sessions), session.value, now, if r.Ok? then Some(r.value) else None)
        && store.order == EvictedOrder(old(store.sessions), old(store.order), session.value, now)
      ensures session.Some? && session != Some("") && clientType != Some("tv") ==>
        var r := JoinResult(old(store.sessions), session.value, socketId, now);
        && clients[index] == MobileClientAfter(session.value, socketId, r)
        && outbox == old(outbox) + MobileConnectReplies(clients, index, session.value, r)
        && store.sessions == Commit(old(store.sessions), session.value, now, if r.Ok? then Some(r.value.session) else None)
        && store.order == EvictedOrder(old(store.sessions), old(store.order), session.value, now)
    {
      if session.None? || session.value == "" {
        index := |clients|;
        ClientsInvAppend(clients, Rejected);
        clients := clients + [Rejected];
        OutboxInvGrow(old(clients), clients, outbox);
        Send(index, ErrorFrame(SESSION_ID_REQUIRED));
      } else if clientType == Some("tv") {
        index := HandleTvConnection(session.value, socketId, now);
      } else {
        index := HandleMobileConnection(session.value, socketId, now);
      }
    }

    method HandleTvConnection(sessionId: string, socketId: string, now: int) returns (index: nat)
      requires Valid()
      modifies this, store
      ensures Valid()
      ensures var r := TvJoinResult(old(store.sessions), sessionId, socketId, now);
        && index == |old(clients)|
        && clients == old(clients) + [TvClientAfter(sessionId, socketId, r)]
        && outbox == old(outbox) + TvConnectReplies(index, r)
        && store.sessions == Commit(old(store.sessions), sessionId, now, if r.Ok? then Some(r.value) else None)
        && store.order == EvictedOrder(old(store.sessions), old(store.order), sessionId, now)
    {
      var r := store.TvJoin(sessionId, socketId, now);
      index := |clients|;
      ClientsInvAppend(clients, TvClientAfter(sessionId, socketId, r));
      clients := clients + [TvClientAfter(sessionId, socketId, r)];
      OutboxInvGrow(old(clients), clients, outbox);
      if r.Err? {
        Send(index, ErrorFrame(r.error));
      } else {
        Send(index, StateFrame(r.value));
      }
    }

    method HandleMobileConnection(sessionId: string, socketId: string, now: int) returns (index: nat)
      requires Valid()
      modifies this, store
      ensures Valid()
      ensures var r := JoinResult(old(store.sessions), sessionId, socketId, now);
        && index == |old(clients)|
        && clients == old(clients) + [MobileClientAfter(sessionId, socketId, r)]
        && outbox == old(outbox) + MobileConnectReplies(clients, index, sessionId, r)
        && store.sessions == Commit(old(store.sessions), sessionId, now, if r.Ok? then Some(r.value.session) else None)
        && store.order == EvictedOrder(old(store.sessions), old(store.order), sessionId, now)
    {
      var r := store.PlayerJoin(sessionId, socketId, now);
      index := AddClient(MobileClientAfter(sessionId, socketId, r));
      if r.Err? {
        Send(index, ErrorFrame(r.error));
      } else {
        AnnounceJoin(index, sessionId, r.value.playerNumber, r.value.session.player1.word.None?);
      }
    }

    /** `wss.clients` gains the new socket, tagged as `c` says. */
    method AddClient(c: Client) returns (index: nat)
      requires ClientsInv(clients) && OutboxInv(clients, outbox) && ClientInv(c)
      modifies this`clients
      ensures index == |old(clients)| && clients == old(clients) + [c]
      ensures ClientsInv(clients) && OutboxInv(clients, outbox)
    {
      ClientsInvAppend(clients, c);
      index := |clients|;
      clients := clients + [c];
      OutboxInvGrow(old(clients), clients, outbox);
    }

    method AnnounceJoin(index: nat, sessionId: string, n: int, firstWordMissing: bool)
      requires index < |clients| && OutboxInv(clients, outbox)
      modifies this`outbox
      ensures OutboxInv(clients, outbox)
      ensures outbox == old(outbox) + JoinReplies(clients, index, sessionId, n, firstWordMissing)
    {
      Send(index, AssignedFrame(n));
      Broadcast(TvAudience(sessionId), PlayerJoined(n));
      if n == 2 && firstWordMissing {
        Send(index, WaitForWord(1));
      }
    }

    /** A message from an open client, routed on its `type`. The session is the one in the
        connection's query string, which is the one the client was tagged with. */
    method HandleMessage(sender: nat, msg: Message, now: int)
      requires Valid() && sender < |clients| && clients[sender].open
      modifies this, store
      ensures Valid()
      ensures clients == old(clients)
      ensures var sid := clients[sender].sessionId.value;
        var m := old(store.sessions);
        match msg
        case SubmitWordMsg(word, hint) =>
          var r := SubmitResult(m, sid, clients[sender].playerNumber, word, hint, now);
          && outbox == old(outbox) + SubmitReplies(clients, sender, sid, clients[sender].playerNumber, r)
          && store.sessions == Commit(m, sid, now, if r.Ok? then Some(r.value.session) else None)
          && store.order == EvictedOrder(m, old(store.order), sid, now)
        case RoundCompleteMsg(winner, guesser) =>
          && outbox == old(outbox) + RoundReplies(clients, sid, Live(m, sid, now), winner, guesser)
          && store.sessions == RoundSessions(m, sid, now, winner, guesser)
          && store.order == EvictedOrder(m, old(store.order), sid, now)
        case PlayAgainMsg =>
          && outbox == old(outbox) + PlayAgainReplies(clients, sid, Live(m, sid, now))
          && store.sessions == ResetSessions(m, sid, now)
          && store.order == EvictedOrder(m, old(store.order), sid, now)
        case QuitMsg =>
          && outbox == old(outbox) + QuitReplies(clients, sid)
          && store.sessions == m - {sid}
          && store.order == Without(old(store.order), sid)
        case UnknownMsg =>
          outbox == old(outbox) && store.sessions == m && store.order == old(store.order)
        case Unparseable =>
          outbox == old(outbox) && store.sessions == m && store.order == old(store.order)
    {
      var sid := clients[sender].sessionId.value;
      match msg
      case SubmitWordMsg(word, hint) => { ghost var _ := HandleWordSubmit(sender, word, hint, now); }
      case RoundCompleteMsg(winner, guesser) => HandleRoundComplete(sid, winner, guesser, now);
      case PlayAgainMsg => HandlePlayAgain(sid, now);
      case QuitMsg => HandleQuit(sid);
      case UnknownMsg =>
      case Unparseable =>
    }

    method HandleWordSubmit(sender: nat, word: string, hint: Option<string>, now: int)
      returns (ghost r: Result<Submitted>)
      requires Valid() && sender < |clients| && clients[sender].open
      modifies this, store
      ensures Valid()
      ensures clients == old(clients)
      ensures r == SubmitResult(old(store.sessions), clients[sender].sessionId.value, clients[sender].playerNumber, word, hint, now)
      ensures outbox == old(outbox) + SubmitReplies(clients, sender, clients[sender].sessionId.value, clients[sender].playerNumber, r)
      ensures store.sessions == Commit(old(store.sessions), clients[sender].sessionId.value, now, if r.Ok? then Some(r.value.session) else None)
      ensures store.order == EvictedOrder(old(store.sessions), old(store.order), clients[sender].sessionId.value, now)
    {
      var sid := clients[sender].sessionId.value;
      var pn := clients[sender].playerNumber;
      var res := store.SubmitWord(sid, pn, word, hint, now);
      r := res;
      if res.Err? {
        Send(sender, ErrorFrame(res.error));
      } else {
        CommitLive(old(store.sessions), old(store.order), sid, now, res.value.session);
        ghost var o0 := outbox;
        AnnounceSubmitted(sender, sid, pn, res.value, now);
        Concat3(o0, WordReplies(clients, sender, sid, pn, res.value.wordLength),
                if res.value.bothWordsSubmitted then ReadyReplies(clients, sid, res.value.session) else []);
      }
    }

    /** The success path of `submit-word`, once the word is stored. */
    method AnnounceSubmitted(sender: nat, sessionId: string, playerNumber: Option<int>, r: Submitted, now: int)
      requires Valid() && sender < |clients| && Live(store.sessions, sessionId, now) == Some(r.session)
      modifies this`outbox, store
      ensures Valid()
      ensures store.sessions == old(store.sessions) && store.order == old(store.order)
      ensures outbox == old(outbox) + WordReplies(clients, sender, sessionId, playerNumber, r.wordLength)
                                    + (if r.bothWordsSubmitted then ReadyReplies(clients, sessionId, r.session) else [])
    {
      AnnounceWord(sender, sessionId, playerNumber, r.wordLength);
      if r.bothWordsSubmitted {
        AnnounceReady(sessionId, r.session, now);
      }
    }

    /** The first half of `submit-word`'s success path. */
    method AnnounceWord(sender: nat, sessionId: string, playerNumber: Option<int>, wordLength: nat)
      requires sender < |clients| && OutboxInv(clients, outbox)
      modifies this`outbox
      ensures OutboxInv(clients, outbox)
      ensures outbox == old(outbox) + WordReplies(clients, sender, sessionId, playerNumber, wordLength)
    {
      Send(sender, WordAccepted(wordLength));
      Broadcast(TvAudience(sessionId), WordSubmitted(playerNumber, wordLength));
      if playerNumber == Some(1) {
        Broadcast(PlayerAudience(sessionId, 2), YourTurn(PLAYER1_SUBMITTED));
      }
    }

    /** Once both words are in: the game data is read back from the store, the TV gets the
        words and everyone is told to look at it. */
    method AnnounceReady(sessionId: string, s: Session, now: int)
      requires Valid() && Live(store.sessions, sessionId, now) == Some(s)
      modifies this`outbox, store
      ensures Valid()
      ensures store.sessions == old(store.sessions) && store.order == old(store.order)
      ensures outbox == old(outbox) + ReadyReplies(clients, sessionId, s)
    {
      var gameData := store.GetGameData(sessionId, now);
      var g := gameData.value;
      Broadcast(TvAudience(sessionId), GameReady(g.player1Word, g.player2Word, g.currentRound));
      Broadcast(SessionAudience(sessionId, None), GameStarted(LOOK_AT_TV));
    }

    method HandleRoundComplete(sessionId: string, winner: bool, guesser: Option<int>, now: int)
      requires Valid()
      modifies this, store
      ensures Valid()
      ensures clients == old(clients)
      ensures outbox == old(outbox) + RoundReplies(clients, sessionId, Live(old(store.sessions), sessionId, now), winner, guesser)
      ensures store.sessions == RoundSessions(old(store.sessions), sessionId, now, winner, guesser)
      ensures store.order == EvictedOrder(old(store.sessions), old(store.order), sessionId, now)
    {
      ghost var m := store.sessions;
      ghost var live := Live(m, sessionId, now);
      var session := ScoreRound(sessionId, winner, guesser, now);
      if session.None? {
        assert old(outbox) + [] == old(outbox);
      } else {
        ghost var after := AfterRound(live.value, winner, guesser);
        CommitLive(m, old(store.order), sessionId, now, session.value);
        CommitLive(m, old(store.order), sessionId, now, after);
        Overwrite(m, sessionId, session.value, after);
        FinishRound(sessionId, session.value, now);
      }
    }

    /** The second half of `round-complete`, on the session as scored. */
    method FinishRound(sessionId: string, s: Session, now: int)
      requires Valid() && Live(store.sessions, sessionId, now) == Some(s)
      modifies this`outbox, store
      ensures Valid()
      ensures outbox == old(outbox) + RoundAnnouncement(clients, sessionId, s)
      ensures store.sessions == old(store.sessions)[sessionId := if s.currentRound == 1 then Advance(s) else s]
      ensures store.order == old(store.order)
    {
      if s.currentRound == 1 {
        CommitLive(store.sessions, store.order, sessionId, now, Advance(s));
        var _ := store.NextRound(sessionId, now);
        Broadcast(TvAudience(sessionId), NewRound(2, s.player1.score, s.player2.score));
      } else {
        assert store.sessions[sessionId := s] == store.sessions;
        Broadcast(SessionAudience(sessionId, None), GameComplete(s.player1.score, s.player2.score));
      }
    }

    /** The first half of `round-complete`: the winner's point, then the session read back. */
    method ScoreRound(sessionId: string, winner: bool, guesser: Option<int>, now: int) returns (session: Option<Session>)
      requires store.Valid()
      modifies store
      ensures store.Valid()
      ensures var live := Live(old(store.sessions), sessionId, now);
        session == (if live.Some? then Some(AddWin(live.value, SlotOf(guesser), winner)) else None)
      ensures store.sessions == Commit(old(store.sessions), sessionId, now, session)
      ensures session.Some? ==> Live(store.sessions, sessionId, now) == session
      ensures store.order == EvictedOrder(old(store.sessions), old(store.order), sessionId, now)
    {
      ghost var m := store.sessions;
      ghost var order := store.order;
      ghost var live := Live(m, sessionId, now);
      if winner {
        var _ := store.UpdateScore(sessionId, guesser, true, now);
      }
      if live.None? {
        EvictIdempotent(m, order, sessionId, now);
      } else {
        CommitLive(m, order, sessionId, now, AddWin(live.value, SlotOf(guesser), winner));
        assert winner || m[sessionId := live.value] == m;
      }
      session := store.GetSession(sessionId, now);
    }

    method HandlePlayAgain(sessionId: string, now: int)
      requires Valid()
      modifies this, store
      ensures Valid()
      ensures clients == old(clients)
      ensures outbox == old(outbox) + PlayAgainReplies(clients, sessionId, Live(old(store.sessions), sessionId, now))
      ensures store.sessions == ResetSessions(old(store.sessions), sessionId, now)
      ensures store.order == EvictedOrder(old(store.sessions), old(store.order), sessionId, now)
    {
      var session := store.ResetForNewGame(sessionId, now);
      if session.None? {
        return;
      }
      AnnounceNewGame(sessionId);
    }

    /** The broadcasts of `play-again` once the session is reset. */
    method AnnounceNewGame(sessionId: string)
      requires OutboxInv(clients, outbox)
      modifies this`outbox
      ensures OutboxInv(clients, outbox)
      ensures outbox == old(outbox) + NewGameReplies(clients, sessionId)
    {
      Broadcast(SessionAudience(sessionId, None), EnterWords(ENTER_NEW_WORDS));
      Broadcast(PlayerAudience(sessionId, 1), YourTurnCanEnter(true));
      Broadcast(PlayerAudience(sessionId, 2), WaitForWord(1));
    }

    method HandleQuit(sessionId: string)
      requires Valid()
      modifies this, store
      ensures Valid()
      ensures clients == old(clients)
      ensures outbox == old(outbox) + QuitReplies(clients, sessionId)
      ensures store.sessions == old(store.sessions) - {sessionId}
      ensures store.order == Without(old(store.order), sessionId)
    {
      store.EndSession(sessionId);
      Broadcast(SessionAudience(sessionId, None), SessionEnded(GAME_ENDED));
    }

    /** A connection closes: the server drops it from its clients, then the store releases
        whatever the socket id was bound to and the rest of that session is told. A socket
        that was never tagged has no id and matches nothing. */
    method OnClose(index: nat)
      requires Valid() && index < |clients|
      modifies this, store
      ensures Valid()
      ensures clients == old(clients)[index := old(clients)[index].(open := false)]
      ensures old(clients)[index].socketId.None? ==>
        outbox == old(outbox) && store.sessions == old(store.sessions)
      ensures old(clients)[index].socketId.Some? ==>
        var socketId := old(clients)[index].socketId.value;
        var found := Owner(old(store.sessions), old(store.order), socketId);
        && outbox == old(outbox) + CloseReplies(clients, socketId, found)
        && store.sessions == (if found.None? then old(store.sessions)
                              else old(store.sessions)[found.value.0 := Unbind(old(store.sessions)[found.value.0], found.value.1)])
      ensures store.order == old(store.order)
    {
      clients := clients[index := clients[index].(open := false)];
      OutboxInvGrow(old(clients), clients, outbox);
      var socketId := clients[index].socketId;
      if socketId.None? {
        return;
      }
      var found := store.PlayerDisconnect(socketId.value);
      if found.Some? {
        Broadcast(SessionAudience(found.value.0, socketId), DisconnectFrame(found.value.1));
      }
    }
  }
}
