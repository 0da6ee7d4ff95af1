/** The hangman session store: an in-memory table from session id to session record,
    with lazy expiry on read, a one-shot expiry sweep, slot binding, word submission,
    scores, rounds, reset, disconnect and end. */
module HangmanSession {
  import opened Wrappers
  import Text

  /** 30 minutes, in milliseconds. */
  const SESSION_EXPIRY: int := 30 * 60 * 1000
  const MIN_WORD_LENGTH: nat := 2
  const MAX_WORD_LENGTH: nat := 12
  const MAX_HINT_LENGTH: nat := 100

  const SESSION_NOT_FOUND: string := "Session not found"
  const SESSION_FULL: string := "Session is full"
  const INVALID_WORD: string := "Word must be 2-12 letters"

  /** All five statuses the record's comment names; `Playing` and `Ended` are never set. */
  datatype Status = WaitingForPlayers | WaitingForWords | Ready | Playing | Ended

  datatype Player = Player(
    connected: bool,
    socketId: Option<string>,
    word: Option<string>,
    hint: Option<string>,
    score: nat)

  datatype Session = Session(
    sessionId: string,
    createdAt: int,
    player1: Player,
    player2: Player,
    tvSocketId: Option<string>,
    currentRound: int,
    status: Status)

  datatype Slot = Slot1 | Slot2

  /** `playerNumber === 1 ? session.player1 : session.player2`; `None` stands for
      `undefined` and for any value that is not an integral number. */
  function SlotOf(playerNumber: Option<int>): (slot: Slot)
    ensures slot == Slot1 <==> playerNumber == Some(1)
  {
    if playerNumber == Some(1) then Slot1 else Slot2
  }

  function PlayerIn(s: Session, slot: Slot): Player {
    match slot
    case Slot1 => s.player1
    case Slot2 => s.player2
  }

  function WithPlayer(s: Session, slot: Slot, p: Player): (r: Session)
    ensures PlayerIn(r, slot) == p
  {
    match slot
    case Slot1 => s.(player1 := p)
    case Slot2 => s.(player2 := p)
  }

  function Other(slot: Slot): Slot {
    if slot == Slot1 then Slot2 else Slot1
  }

  // ---------------------------------------------------------------------------------
  // Words and hints

  predicate ValidWord(w: string) {
    MIN_WORD_LENGTH <= |w| <= MAX_WORD_LENGTH && Text.AllLatinUpper(w)
  }

  /** `word.toUpperCase().replace(/[^A-Z]/g, '')` */
  function CleanWord(word: string): (clean: string)
    ensures Text.AllLatinUpper(clean)
  {
    Text.KeepLatinUpper(Text.UpperCase(word))
  }

  /** `hint ? hint.substring(0, 100) : ''`; `None` stands for a missing hint. */
  function StoredHint(hint: Option<string>): (h: string)
    ensures |h| <= MAX_HINT_LENGTH
    ensures hint.Some? && |hint.value| <= MAX_HINT_LENGTH ==> h == hint.value
    ensures hint.Some? && |hint.value| > MAX_HINT_LENGTH ==> h == hint.value[..MAX_HINT_LENGTH]
    ensures hint.None? ==> h == ""
  {
    if hint.None? || hint.value == "" then ""
    else if |hint.value| <= MAX_HINT_LENGTH then hint.value
    else hint.value[..MAX_HINT_LENGTH]
  }

  // ---------------------------------------------------------------------------------
  // The invariant every session record keeps

  predicate PlayerInv(p: Player) {
    && (p.connected <==> p.socketId.Some?)
    && (p.word.Some? <==> p.hint.Some?)
    && (p.word.Some? ==> ValidWord(p.word.value))
    && (p.hint.Some? ==> |p.hint.value| <= MAX_HINT_LENGTH)
  }

  predicate BothWords(s: Session) {
    s.player1.word.Some? && s.player2.word.Some?
  }

  /** What every operation preserves: consistent slots, a round of 1 or 2, `ready` only
      with both words present, `waiting_for_players` only while slot 2 has never been
      filled, and never the statuses `playing` or `ended`. */
  predicate SessionInv(s: Session) {
    && PlayerInv(s.player1)
    && PlayerInv(s.player2)
    && (s.currentRound == 1 || s.currentRound == 2)
    && (s.status == Ready ==> BothWords(s))
    && (s.status == WaitingForPlayers ==> !s.player2.connected)
    && s.status != Playing
    && s.status != Ended
  }

  /** Neither score went down from `s` to `t`. */
  predicate ScoresKept(s: Session, t: Session) {
    s.player1.score <= t.player1.score && s.player2.score <= t.player2.score
  }

  /** The id and the creation time, which no transition touches. */
  predicate SameIdentity(s: Session, t: Session) {
    s.sessionId == t.sessionId && s.createdAt == t.createdAt
  }

  // ---------------------------------------------------------------------------------
  // Transitions of one session record (the in-place field updates of the source)

  const EmptyPlayer: Player := Player(false, None, None, None, 0)

  /** `createSession`'s record: waiting for players, round 1, no TV, two empty slots. */
  function NewSession(sessionId: string, now: int): (s: Session)
    ensures s.sessionId == sessionId && s.createdAt == now
    ensures s.status == WaitingForPlayers && s.currentRound == 1 && s.tvSocketId.None?
    ensures forall slot :: (!PlayerIn(s, slot).connected && PlayerIn(s, slot).socketId.None? &&
      PlayerIn(s, slot).word.None? && PlayerIn(s, slot).hint.None? && PlayerIn(s, slot).score == 0)
    ensures SessionInv(s)
  {
    Session(sessionId, now, EmptyPlayer, EmptyPlayer, None, 1, WaitingForPlayers)
  }

  datatype Joined = Joined(playerNumber: int, session: Session)

  /** Bind a mobile connection to the first slot that is not connected. */
  function Join(s: Session, socketId: string): (r: Result<Joined>)
    ensures r.Err? <==> s.player1.connected && s.player2.connected
    ensures r.Err? ==> r.error == SESSION_FULL
    ensures r.Ok? ==> (r.value.playerNumber == 1 <==> !s.player1.connected)
    ensures r.Ok? ==> (r.value.playerNumber == 2 <==> s.player1.connected)
    ensures r.Ok? ==>
      var slot := if r.value.playerNumber == 1 then Slot1 else Slot2;
      var t := r.value.session;
      && PlayerIn(t, slot) == PlayerIn(s, slot).(connected := true, socketId := Some(socketId))
      && PlayerIn(t, Other(slot)) == PlayerIn(s, Other(slot))
      && t.status == (if slot == Slot2 && s.status == WaitingForPlayers then WaitingForWords else s.status)
      && t.tvSocketId == s.tvSocketId && t.currentRound == s.currentRound && SameIdentity(s, t)
    ensures r.Ok? && SessionInv(s) ==> SessionInv(r.value.session)
  {
    if !s.player1.connected then
      Ok(Joined(1, s.(player1 := s.player1.(connected := true, socketId := Some(socketId)))))
    else if !s.player2.connected then
      var t := s.(player2 := s.player2.(connected := true, socketId := Some(socketId)));
      Ok(Joined(2, if t.status == WaitingForPlayers then t.(status := WaitingForWords) else t))
    else
      Err(SESSION_FULL)
  }

  /** `session.tvSocketId = socketId`: the last TV to join wins. */
  function BindTv(s: Session, socketId: string): (t: Session)
    ensures t.tvSocketId == Some(socketId)
    ensures t.player1 == s.player1 && t.player2 == s.player2 && t.status == s.status
    ensures t.currentRound == s.currentRound && SameIdentity(s, t)
    ensures SessionInv(s) ==> SessionInv(t)
  {
    s.(tvSocketId := Some(socketId))
  }

  datatype Submitted = Submitted(session: Session, bothWordsSubmitted: bool, wordLength: nat)

  /** Store a cleaned word and its hint in the slot and mark the session `ready` when both
      words are present afterwards. */
  function Submit(s: Session, slot: Slot, clean: string, hint: string): (t: Session)
    ensures PlayerIn(t, slot) == PlayerIn(s, slot).(word := Some(clean), hint := Some(hint))
    ensures PlayerIn(t, Other(slot)) == PlayerIn(s, Other(slot))
    ensures t.status == (if BothWords(t) then Ready else s.status)
    ensures t.tvSocketId == s.tvSocketId && t.currentRound == s.currentRound && SameIdentity(s, t)
    ensures SessionInv(s) && ValidWord(clean) && |hint| <= MAX_HINT_LENGTH ==> SessionInv(t)
  {
    var p := PlayerIn(s, slot).(word := Some(clean), hint := Some(hint));
    var t := WithPlayer(s, slot, p);
    if BothWords(t) then t.(status := Ready) else t
  }

  /** The outcome of `submitWord` on a live session `s`. */
  function SubmitTo(s: Session, playerNumber: Option<int>, word: string, hint: Option<string>): (r: Result<Submitted>)
    ensures r.Err? <==> !(MIN_WORD_LENGTH <= |CleanWord(word)| <= MAX_WORD_LENGTH)
    ensures r.Err? ==> r.error == INVALID_WORD
    ensures r.Ok? ==> r.value.wordLength == |CleanWord(word)|
    ensures r.Ok? ==> PlayerIn(r.value.session, SlotOf(playerNumber)).word == Some(CleanWord(word))
    ensures r.Ok? ==> (r.value.bothWordsSubmitted <==> BothWords(r.value.session))
    ensures r.Ok? ==> (r.value.session.status == Ready <==> r.value.bothWordsSubmitted || s.status == Ready)
    ensures r.Ok? ==> SameIdentity(s, r.value.session)
    ensures r.Ok? ==> r.value.session.player1.score == s.player1.score && r.value.session.player2.score == s.player2.score
    ensures r.Ok? && SessionInv(s) ==> SessionInv(r.value.session)
  {
    var clean := CleanWord(word);
    if |clean| < MIN_WORD_LENGTH || |clean| > MAX_WORD_LENGTH then
      Err(INVALID_WORD)
    else
      var t := Submit(s, SlotOf(playerNumber), clean, StoredHint(hint));
      Ok(Submitted(t, BothWords(t), |clean|))
  }

  /** `if (won) player.score++` */
  function AddWin(s: Session, slot: Slot, won: bool): (t: Session)
    ensures PlayerIn(t, slot).score == PlayerIn(s, slot).score + (if won then 1 else 0)
    ensures PlayerIn(t, slot) == PlayerIn(s, slot).(score := PlayerIn(t, slot).score)
    ensures PlayerIn(t, Other(slot)) == PlayerIn(s, Other(slot))
    ensures !won ==> t == s
    ensures t.tvSocketId == s.tvSocketId && t.currentRound == s.currentRound && t.status == s.status
    ensures SameIdentity(s, t) && ScoresKept(s, t)
    ensures SessionInv(s) ==> SessionInv(t)
  {
    if won then
      var p := PlayerIn(s, slot);
      WithPlayer(s, slot, p.(score := p.score + 1))
    else s
  }

  /** `currentRound === 1 ? 2 : 1` */
  function Advance(s: Session): (t: Session)
    ensures t.currentRound == (if s.currentRound == 1 then 2 else 1)
    ensures t == s.(currentRound := t.currentRound)
    ensures SessionInv(s) ==> SessionInv(t)
  {
    s.(currentRound := if s.currentRound == 1 then 2 else 1)
  }

  /** Clear both words and hints, go back to round 1 and `waiting_for_words`. */
  function Reset(s: Session): (t: Session)
    ensures t.player1 == s.player1.(word := None, hint := None)
    ensures t.player2 == s.player2.(word := None, hint := None)
    ensures t.currentRound == 1 && t.status == WaitingForWords
    ensures t.tvSocketId == s.tvSocketId && SameIdentity(s, t) && ScoresKept(s, t)
    ensures SessionInv(s) ==> SessionInv(t)
  {
    s.(player1 := s.player1.(word := None, hint := None),
       player2 := s.player2.(word := None, hint := None),
       currentRound := 1,
       status := WaitingForWords)
  }

  datatype Role = Player1 | Player2 | Tv

  /** Which binding of `s` holds `socketId`, tested in the order slot 1, slot 2, TV. */
  function MatchRole(s: Session, socketId: string): (r: Option<Role>)
    ensures r == Some(Player1) <==> s.player1.socketId == Some(socketId)
    ensures r == Some(Player2) <==> s.player1.socketId != Some(socketId) && s.player2.socketId == Some(socketId)
    ensures r.None? <==>
      s.player1.socketId != Some(socketId) && s.player2.socketId != Some(socketId) && s.tvSocketId != Some(socketId)
  {
    if s.player1.socketId == Some(socketId) then Some(Player1)
    else if s.player2.socketId == Some(socketId) then Some(Player2)
    else if s.tvSocketId == Some(socketId) then Some(Tv)
    else None
  }

  /** Release the binding `role`: a slot loses its connected flag and socket id, keeping its
      word, hint and score; the TV loses its socket id. */
  function Unbind(s: Session, role: Role): (t: Session)
    ensures role == Player1 ==> t == s.(player1 := s.player1.(connected := false, socketId := None))
    ensures role == Player2 ==> t == s.(player2 := s.player2.(connected := false, socketId := None))
    ensures role == Tv ==> t == s.(tvSocketId := None)
    ensures ScoresKept(s, t)
    ensures SessionInv(s) ==> SessionInv(t)
  {
    match role
    case Player1 => s.(player1 := s.player1.(connected := false, socketId := None))
    case Player2 => s.(player2 := s.player2.(connected := false, socketId := None))
    case Tv => s.(tvSocketId := None)
  }

  datatype WordInfo = WordInfo(length: nat, hint: string, word: Option<string>)
  datatype GameData = GameData(player1Word: WordInfo, player2Word: WordInfo, currentRound: int)

  /** What `getGameData` reports for one slot: for a consistent slot the length is 0
      exactly when there is no word, otherwise 2 to 12, and the hint is at most 100
      characters. */
  function WordInfoOf(p: Player): (w: WordInfo)
    ensures w.word == p.word
    ensures PlayerInv(p) ==> ((w.length == 0 <==> w.word.None?) && (w.word.Some? ==> MIN_WORD_LENGTH <= w.length <= MAX_WORD_LENGTH))
    ensures PlayerInv(p) ==> |w.hint| <= MAX_HINT_LENGTH
  {
    WordInfo(if p.word.Some? then |p.word.value| else 0,
             if p.hint.Some? then p.hint.value else "",
             p.word)
  }

  /** `getGameData`: both words with their lengths and hints, and the round. For a
      session that is `ready`, both slots carry a word. */
  function GameDataOf(s: Session): (g: GameData)
    ensures g.player1Word == WordInfoOf(s.player1) && g.player2Word == WordInfoOf(s.player2)
    ensures g.currentRound == s.currentRound
    ensures SessionInv(s) && s.status == Ready ==>
      && g.player1Word.word.Some? && MIN_WORD_LENGTH <= g.player1Word.length <= MAX_WORD_LENGTH
      && g.player2Word.word.Some? && MIN_WORD_LENGTH <= g.player2Word.length <= MAX_WORD_LENGTH
  {
    GameData(WordInfoOf(s.player1), WordInfoOf(s.player2), s.currentRound)
  }

  // ---------------------------------------------------------------------------------
  // The table: lazy expiry and insertion order

  predicate IsExpired(s: Session, now: int) {
    now - s.createdAt > SESSION_EXPIRY
  }

  /** What `getSession(id)` returns at time `now`. */
  function Live(m: map<string, Session>, id: string, now: int): (r: Option<Session>)
    ensures r.Some? <==> id in m && now - m[id].createdAt <= SESSION_EXPIRY
    ensures r.Some? ==> r.value == m[id]
  {
    if id in m && !IsExpired(m[id], now) then Some(m[id]) else None
  }

  /** The table after `getSession(id)` at time `now`: an expired entry is deleted. */
  function Evicted(m: map<string, Session>, id: string, now: int): (r: map<string, Session>)
    ensures id in m && IsExpired(m[id], now) ==> r == m - {id}
    ensures !(id in m && IsExpired(m[id], now)) ==> r == m
  {
    if id in m && IsExpired(m[id], now) then m - {id} else m
  }

  /** The table after an operation that reads `id` at `now` and, when the session is
      live, replaces it by `updated`. */
  function Commit(m: map<string, Session>, id: string, now: int, updated: Option<Session>): map<string, Session> {
    if updated.Some? && Live(m, id, now).Some? then m[id := updated.value] else Evicted(m, id, now)
  }

  // What each operation returns when it reads `id` from the table `m` at time `now`.

  function JoinResult(m: map<string, Session>, id: string, socketId: string, now: int): (r: Result<Joined>)
    ensures r.Err? <==> Live(m, id, now).None? || (Live(m, id, now).value.player1.connected && Live(m, id, now).value.player2.connected)
    ensures r.Ok? ==> r.value.playerNumber == 1 || r.value.playerNumber == 2
  {
    match Live(m, id, now)
    case None => Err(SESSION_NOT_FOUND)
    case Some(s) => Join(s, socketId)
  }

  function TvJoinResult(m: map<string, Session>, id: string, socketId: string, now: int): (r: Result<Session>)
    ensures r.Err? <==> Live(m, id, now).None?
  {
    match Live(m, id, now)
    case None => Err(SESSION_NOT_FOUND)
    case Some(s) => Ok(BindTv(s, socketId))
  }

  function SubmitResult(m: map<string, Session>, id: string, playerNumber: Option<int>, word: string,
                        hint: Option<string>, now: int): (r: Result<Submitted>)
    ensures Live(m, id, now).None? ==> r == Err(SESSION_NOT_FOUND)
    ensures r.Err? <==> Live(m, id, now).None? || !(MIN_WORD_LENGTH <= |CleanWord(word)| <= MAX_WORD_LENGTH)
    ensures r.Ok? ==> Live(m, id, now).Some? && SameIdentity(Live(m, id, now).value, r.value.session)
  {
    match Live(m, id, now)
    case None => Err(SESSION_NOT_FOUND)
    case Some(s) => SubmitTo(s, playerNumber, word, hint)
  }

  predicate Distinct(s: seq<string>) {
    forall i, j :: 0 <= i < j < |s| ==> s[i] != s[j]
  }

  /** `s` with every occurrence of `x` taken out, the rest in order. */
  function Without(s: seq<string>, x: string): (r: seq<string>)
    ensures forall y :: y in r <==> y in s && y != x
    ensures Distinct(s) ==> Distinct(r)
    ensures x !in s ==> r == s
  {
    if s == [] then []
    else
      var rest := Without(s[1..], x);
      assert Distinct(s) ==> Distinct(s[1..]) && s[0] !in s[1..] by {
        if Distinct(s) {
          forall k | 0 <= k < |s[1..]| ensures s[1..][k] != s[0] { assert s[1..][k] == s[k + 1]; }
        }
      }
      if s[0] == x then rest else [s[0]] + rest
  }

  /** Deleting distributes over concatenation, so the ids left keep their relative order:
      `Map.delete` does not reorder the rest. */
  lemma {:induction false} WithoutAppend(a: seq<string>, b: seq<string>, x: string)
    ensures Without(a + b, x) == Without(a, x) + Without(b, x)
  {
    if a == [] {
      assert a + b == b;
    } else {
      assert (a + b)[0] == a[0] && (a + b)[1..] == a[1..] + b;
      WithoutAppend(a[1..], b, x);
    }
  }

  function EvictedOrder(m: map<string, Session>, order: seq<string>, id: string, now: int): seq<string> {
    if id in m && IsExpired(m[id], now) then Without(order, id) else order
  }

  /** Writing back a changed copy of a live session keeps it live at the same time, so the
      next read at that time finds the copy and evicts nothing. */
  lemma CommitLive(m: map<string, Session>, order: seq<string>, id: string, now: int, s: Session)
    requires Live(m, id, now).Some? && SameIdentity(Live(m, id, now).value, s)
    ensures Commit(m, id, now, Some(s)) == m[id := s]
    ensures Live(m[id := s], id, now) == Some(s)
    ensures Evicted(m[id := s], id, now) == m[id := s]
    ensures EvictedOrder(m[id := s], order, id, now) == order
  {
  }

  /** Reading a missing or expired session evicts it once; reading it again at the same
      time finds nothing and changes nothing. */
  lemma EvictIdempotent(m: map<string, Session>, order: seq<string>, id: string, now: int)
    requires Live(m, id, now).None?
    ensures Live(Evicted(m, id, now), id, now).None?
    ensures Evicted(Evicted(m, id, now), id, now) == Evicted(m, id, now)
    ensures EvictedOrder(Evicted(m, id, now), EvictedOrder(m, order, id, now), id, now) == EvictedOrder(m, order, id, now)
  {
  }

  /** The first session in insertion order that holds `socketId`, with the role it holds. */
  function Owner(m: map<string, Session>, order: seq<string>, socketId: string): (r: Option<(string, Role)>)
    ensures r.Some? ==> r.value.0 in order && r.value.0 in m && MatchRole(m[r.value.0], socketId) == Some(r.value.1)
  {
    if order == [] then None
    else if order[0] in m && MatchRole(m[order[0]], socketId).Some? then
      Some((order[0], MatchRole(m[order[0]], socketId).value))
    else Owner(m, order[1..], socketId)
  }

  /** `playerDisconnect` returns the first match in insertion order: the session found holds
      the socket id, and no session before it does; when none is found, no session does. */
  lemma {:induction false} OwnerIsFirst(m: map<string, Session>, order: seq<string>, socketId: string)
    requires forall k :: k in order ==> k in m
    ensures Owner(m, order, socketId).None? <==>
      forall i :: 0 <= i < |order| ==> MatchRole(m[order[i]], socketId).None?
    ensures Owner(m, order, socketId).Some? ==>
      exists i :: 0 <= i < |order| && order[i] == Owner(m, order, socketId).value.0 &&
        forall j :: 0 <= j < i ==> MatchRole(m[order[j]], socketId).None?
  {
    if order != [] {
      OwnerIsFirst(m, order[1..], socketId);
      if Owner(m, order, socketId).Some? && MatchRole(m[order[0]], socketId).None? {
        var i :| 0 <= i < |order[1..]| && order[1..][i] == Owner(m, order, socketId).value.0 &&
          forall j :: 0 <= j < i ==> MatchRole(m[order[1..][j]], socketId).None?;
        assert order[i + 1] == Owner(m, order, socketId).value.0;
        assert forall j :: 0 <= j < i + 1 ==> MatchRole(m[order[j]], socketId).None? by {
          forall j | 0 <= j < i + 1 ensures MatchRole(m[order[j]], socketId).None? {
            if j > 0 { assert order[j] == order[1..][j - 1]; }
          }
        }
      }
      if Owner(m, order, socketId).None? {
        forall i | 0 <= i < |order| ensures MatchRole(m[order[i]], socketId).None? {
          if i > 0 { assert order[i] == order[1..][i - 1]; }
        }
      }
    }
  }

  // ---------------------------------------------------------------------------------
  // Properties of the transitions

  /** Normalising a normalised word changes nothing, so a stored word is its own clean form. */
  lemma CleanWordIdempotent(word: string)
    ensures CleanWord(CleanWord(word)) == CleanWord(word)
  {
    var clean := CleanWord(word);
    Text.UpperCaseOfLatinUpper(clean);
    Text.KeepLatinUpperOfLatinUpper(clean);
  }

  /** Digits and punctuation are dropped and letters upper-cased. */
  lemma CleanWordDropsNonLetters()
    ensures CleanWord("Ca7!t") == "CAT"
  {
    assert Text.UpperCase("t") == "T";
    assert Text.UpperCase("!t") == "!T";
    assert Text.UpperCase("7!t") == "7!T";
    assert Text.UpperCase("a7!t") == "A7!T";
    assert Text.UpperCase("Ca7!t") == "CA7!T";
    assert Text.KeepLatinUpper("T") == "T";
    assert Text.KeepLatinUpper("!T") == "T";
    assert Text.KeepLatinUpper("7!T") == "T";
    assert Text.KeepLatinUpper("A7!T") == "AT";
    assert Text.KeepLatinUpper("CA7!T") == "CAT";
  }

  /** The sharp s upper-cases to two letters, so it counts twice towards the length limit. */
  lemma CleanWordSharpS()
    ensures CleanWord("ma\U{00DF}") == "MASS"
  {
    assert Text.UpperChar('\U{00DF}') == "SS";
    assert Text.UpperCase("\U{00DF}") == "SS";
    assert Text.UpperCase("a\U{00DF}") == "ASS";
    assert Text.UpperCase("ma\U{00DF}") == "MASS";
    Text.KeepLatinUpperOfLatinUpper("MASS");
  }

  /** A rejected word leaves no trace and an accepted one is stored in its clean form, so
      every stored word is 2 to 12 letters A to Z whatever the input was. */
  lemma SubmitStoresValidWord(s: Session, playerNumber: Option<int>, word: string, hint: Option<string>)
    requires SessionInv(s)
    ensures var r := SubmitTo(s, playerNumber, word, hint);
      r.Ok? ==> (ValidWord(PlayerIn(r.value.session, SlotOf(playerNumber)).word.value) &&
        |PlayerIn(r.value.session, SlotOf(playerNumber)).hint.value| <= MAX_HINT_LENGTH)
  {
    var r := SubmitTo(s, playerNumber, word, hint);
    if r.Ok? {
      assert SessionInv(r.value.session);
      assert PlayerInv(PlayerIn(r.value.session, SlotOf(playerNumber)));
    }
  }

  /** Reading the game data back after a submit finds the cleaned word, its length and the
      stored hint in the sender's slot, and the other slot as it was. */
  lemma SubmitThenGameData(s: Session, playerNumber: Option<int>, word: string, hint: Option<string>)
    requires SubmitTo(s, playerNumber, word, hint).Ok?
    ensures var r := SubmitTo(s, playerNumber, word, hint).value;
      var g := GameDataOf(r.session);
      && (if SlotOf(playerNumber) == Slot1 then g.player1Word else g.player2Word)
         == WordInfo(r.wordLength, StoredHint(hint), Some(CleanWord(word)))
      && (if SlotOf(playerNumber) == Slot1 then g.player2Word else g.player1Word)
         == WordInfoOf(PlayerIn(s, Other(SlotOf(playerNumber))))
      && g.currentRound == s.currentRound
  {
  }

  /** Expiry is final: a session absent at some time stays absent at every later time (so
      one found later was also found before). */
  lemma ExpiryIsFinal(m: map<string, Session>, id: string, now: int, later: int)
    requires now <= later
    ensures Live(m, id, now).None? ==> Live(m, id, later).None?
    ensures id in m && IsExpired(m[id], now) ==> IsExpired(m[id], later)
  {
  }

  /** Three joins on a new session: slot 1, then slot 2 (waiting for words), then full. */
  lemma JoinOrder(sessionId: string, now: int, a: string, b: string, c: string)
    ensures var j1 := Join(NewSession(sessionId, now), a);
      && j1.Ok? && j1.value.playerNumber == 1 && j1.value.session.status == WaitingForPlayers
      && var j2 := Join(j1.value.session, b);
         && j2.Ok? && j2.value.playerNumber == 2 && j2.value.session.status == WaitingForWords
         && j2.value.session.player1.socketId == Some(a) && j2.value.session.player2.socketId == Some(b)
         && Join(j2.value.session, c) == Err(SESSION_FULL)
  {
  }

  /** A whole game on the record: two words, one win per round, then a reset that keeps
      the scores and the connections. */
  lemma ExampleGame(sessionId: string, now: int)
    ensures
      var s0 := Join(Join(NewSession(sessionId, now), "p1").value.session, "p2").value.session;
      var w1 := SubmitTo(s0, Some(1), "dog", Some("pet"));
      && w1.Ok? && w1.value.wordLength == 3 && !w1.value.bothWordsSubmitted
      && var w2 := SubmitTo(w1.value.session, Some(2), "ox", None);
         && w2.Ok? && w2.value.wordLength == 2 && w2.value.bothWordsSubmitted
         && w2.value.session.status == Ready
         && var r1 := Advance(AddWin(w2.value.session, Slot2, true));
            && r1.currentRound == 2 && r1.player2.score == 1 && r1.player1.score == 0
            && var r2 := AddWin(r1, Slot1, true);
               && r2.player1.score == 1 && r2.player2.score == 1
               && var again := Reset(r2);
                  && again.status == WaitingForWords && again.currentRound == 1
                  && again.player1.word.None? && again.player2.word.None?
                  && again.player1.score == 1 && again.player2.score == 1
                  && again.player1.connected && again.player2.connected
  {
    assert CleanWord("dog") == "DOG" by {
      assert Text.UpperCase("dog") == "DOG";
      assert Text.KeepLatinUpper("DOG") == "DOG";
    }
    assert CleanWord("ox") == "OX" by {
      assert Text.UpperCase("ox") == "OX";
      assert Text.KeepLatinUpper("OX") == "OX";
    }
  }

  /** The HangmanSessionService: the module-level `sessions` map and its operations. */
  class SessionStore {
    var sessions: map<string, Session>
    /** The keys of `sessions` in the order a JavaScript `Map` iterates them. */
    var order: seq<string>

    ghost predicate Valid()
      reads this
    {
      && Distinct(order)
      && (forall id :: id in order <==> id in sessions)
      && (forall id :: id in sessions ==> sessions[id].sessionId == id && SessionInv(sessions[id]))
    }

    constructor ()
      ensures Valid() && sessions == map[] && order == []
    {
      sessions := map[];
      order := [];
    }

    /** `createSession`: no collision check; an existing entry is overwritten in place and
        keeps its position in the iteration order. */
    method CreateSession(sessionId: string, now: int) returns (s: Session)
      requires Valid()
      modifies this
      ensures Valid()
      ensures s == NewSession(sessionId, now)
      ensures sessions == old(sessions)[sessionId := s]
      ensures order == if sessionId in old(sessions) then old(order) else old(order) + [sessionId]
    {
      s := NewSession(sessionId, now);
      if sessionId !in sessions {
        order := order + [sessionId];
      }
      sessions := sessions[sessionId := s];
    }

    /** `endSession`: delete; deleting an absent id changes nothing, so it is idempotent. */
    method EndSession(sessionId: string)
      requires Valid()
      modifies this
      ensures Valid()
      ensures sessions == old(sessions) - {sessionId}
      ensures order == Without(old(order), sessionId)
      ensures sessionId !in old(sessions) ==> sessions == old(sessions) && order == old(order)
    {
      sessions := sessions - {sessionId};
      order := Without(order, sessionId);
    }

    /** `getSession`: the session, unless it is absent or more than 30 minutes old, in which
        case an expired entry is deleted and nothing is returned. */
    method GetSession(sessionId: string, now: int) returns (r: Option<Session>)
      requires Valid()
      modifies this
      ensures Valid()
      ensures r == Live(old(sessions), sessionId, now)
      ensures sessions == Evicted(old(sessions), sessionId, now)
      ensures order == EvictedOrder(old(sessions), old(order), sessionId, now)
    {
      if sessionId in sessions && IsExpired(sessions[sessionId], now) {
        EndSession(sessionId);
        return None;
      }
      r := if sessionId in sessions then Some(sessions[sessionId]) else None;
    }

    /** The deferred cleanup scheduled at creation: delete the entry only if it is present
        and expired, so it is a no-op otherwise and safe to run after `endSession`. */
    method Sweep(sessionId: string, now: int)
      requires Valid()
      modifies this
      ensures Valid()
      ensures sessions == Evicted(old(sessions), sessionId, now)
      ensures order == EvictedOrder(old(sessions), old(order), sessionId, now)
    {
      if sessionId in sessions && IsExpired(sessions[sessionId], now) {
        EndSession(sessionId);
      }
    }

    /** Write back a session read by `GetSession` at the same `now`. */
    method Put(sessionId: string, s: Session)
      requires Valid() && sessionId in sessions
      requires s.sessionId == sessionId && SessionInv(s)
      modifies this
      ensures Valid()
      ensures sessions == old(sessions)[sessionId := s] && order == old(order)
    {
      sessions := sessions[sessionId := s];
    }

    method PlayerJoin(sessionId: string, socketId: string, now: int) returns (r: Result<Joined>)
      requires Valid()
      modifies this
      ensures Valid()
      ensures r == JoinResult(old(sessions), sessionId, socketId, now)
      ensures sessions == Commit(old(sessions), sessionId, now, if r.Ok? then Some(r.value.session) else None)
      ensures order == EvictedOrder(old(sessions), old(order), sessionId, now)
    {
      var live := GetSession(sessionId, now);
      if live.None? {
        return Err(SESSION_NOT_FOUND);
      }
      r := Join(live.value, socketId);
      if r.Ok? {
        Put(sessionId, r.value.session);
      }
    }

    method TvJoin(sessionId: string, socketId: string, now: int) returns (r: Result<Session>)
      requires Valid()
      modifies this
      ensures Valid()
      ensures r == TvJoinResult(old(sessions), sessionId, socketId, now)
      ensures sessions == Commit(old(sessions), sessionId, now, if r.Ok? then Some(r.value) else None)
      ensures order == EvictedOrder(old(sessions), old(order), sessionId, now)
    {
      var live := GetSession(sessionId, now);
      if live.None? {
        return Err(SESSION_NOT_FOUND);
      }
      var t := BindTv(live.value, socketId);
      Put(sessionId, t);
      r := Ok(t);
    }

    method SubmitWord(sessionId: string, playerNumber: Option<int>, word: string, hint: Option<string>, now: int)
      returns (r: Result<Submitted>)
      requires Valid()
      modifies this
      ensures Valid()
      ensures r == SubmitResult(old(sessions), sessionId, playerNumber, word, hint, now)
      ensures sessions == Commit(old(sessions), sessionId, now, if r.Ok? then Some(r.value.session) else None)
      ensures order == EvictedOrder(old(sessions), old(order), sessionId, now)
    {
      var live := GetSession(sessionId, now);
      if live.None? {
        return Err(SESSION_NOT_FOUND);
      }
      r := SubmitTo(live.value, playerNumber, word, hint);
      if r.Ok? {
        Put(sessionId, r.value.session);
      }
    }

    method GetGameData(sessionId: string, now: int) returns (r: Option<GameData>)
      requires Valid()
      modifies this
      ensures Valid()
      ensures r == match Live(old(sessions), sessionId, now)
                   case None => None
                   case Some(s) => Some(GameDataOf(s))
      ensures sessions == Evicted(old(sessions), sessionId, now)
      ensures order == EvictedOrder(old(sessions), old(order), sessionId, now)
    {
      var live := GetSession(sessionId, now);
      r := if live.Some? then Some(GameDataOf(live.value)) else None;
    }

    method NextRound(sessionId: string, now: int) returns (r: Option<Session>)
      requires Valid()
      modifies this
      ensures Valid()
      ensures r == match Live(old(sessions), sessionId, now)
                   case None => None
                   case Some(s) => Some(Advance(s))
      ensures sessions == Commit(old(sessions), sessionId, now, r)
      ensures order == EvictedOrder(old(sessions), old(order), sessionId, now)
    {
      var live := GetSession(sessionId, now);
      if live.None? {
        return None;
      }
      var t := Advance(live.value);
      Put(sessionId, t);
      r := Some(t);
    }

    method UpdateScore(sessionId: string, playerNumber: Option<int>, won: bool, now: int) returns (r: Option<Session>)
      requires Valid()
      modifies this
      ensures Valid()
      ensures r == match Live(old(sessions), sessionId, now)
                   case None => None
                   case Some(s) => Some(AddWin(s, SlotOf(playerNumber), won))
      ensures sessions == Commit(old(sessions), sessionId, now, r)
      ensures order == EvictedOrder(old(sessions), old(order), sessionId, now)
    {
      var live := GetSession(sessionId, now);
      if live.None? {
        return None;
      }
      var t := AddWin(live.value, SlotOf(playerNumber), won);
      Put(sessionId, t);
      r := Some(t);
    }

    method ResetForNewGame(sessionId: string, now: int) returns (r: Option<Session>)
      requires Valid()
      modifies this
      ensures Valid()
      ensures r == match Live(old(sessions), sessionId, now)
                   case None => None
                   case Some(s) => Some(Reset(s))
      ensures sessions == Commit(old(sessions), sessionId, now, r)
      ensures order == EvictedOrder(old(sessions), old(order), sessionId, now)
    {
      var live := GetSession(sessionId, now);
      if live.None? {
        return None;
      }
      var t := Reset(live.value);
      Put(sessionId, t);
      r := Some(t);
    }

    /** The `for...of` scan of `playerDisconnect`: the first session in insertion order that
        holds `socketId`, expired or not. */
    method FindOwner(socketId: string) returns (r: Option<(string, Role)>)
      requires Valid()
      ensures r == Owner(sessions, order, socketId)
    {
      var i := 0;
      while i < |order|
        invariant 0 <= i <= |order|
        invariant Owner(sessions, order, socketId) == Owner(sessions, order[i..], socketId)
      {
        var id := order[i];
        var role := MatchRole(sessions[id], socketId);
        if role.Some? {
          return Some((id, role.value));
        }
        assert order[i..][1..] == order[i + 1..];
        i := i + 1;
      }
      r := None;
    }

    method PlayerDisconnect(socketId: string) returns (r: Option<(string, Role)>)
      requires Valid()
      modifies this
      ensures Valid()
      ensures r == Owner(old(sessions), old(order), socketId)
      ensures r.None? ==> sessions == old(sessions)
      ensures r.Some? ==> (r.value.0 in old(sessions) &&
        sessions == old(sessions)[r.value.0 := Unbind(old(sessions)[r.value.0], r.value.1)])
      ensures order == old(order)
    {
      r := FindOwner(socketId);
      if r.Some? {
        var id := r.value.0;
        Put(id, Unbind(sessions[id], r.value.1));
      }
    }
  }
}
