/**
 * The V7.7 engine of main.py: the single active_game row and the player_cards table as one
 * object, one pass of the game_engine loop as Tick, and the /join handler as Join.
 * The clock is the parameter `now`; the id of a message the bot sends is the parameter `sentId`.
 */
module Engine {
  import opened Wrappers
  import opened Lifecycle
  import Cards
  import Draws

  /** A player_cards row; its primary key user_id is the key of the map that holds it. */
  datatype PlayerCard = PlayerCard(chatId: int, cardData: string)

  /** How join_game ends: a new card, "already in the game", "paused or invalid", or a failed commit. */
  datatype JoinOutcome = CardIssued | AlreadyJoined | NotAccepting | CommitFailed

  /** How many stored cards belong to the game's chat (none when the game has no chat). */
  function PlayerCount(cards: map<int, PlayerCard>, chatId: Option<int>): nat
  {
    |set u | u in cards && Some(cards[u].chatId) == chatId|
  }

  class Store {
    /** Whether the active_game row exists. */
    var present: bool
    var state: State
    var chatId: Option<int>
    var drawn: string
    var lobbyStart: Option<int>
    var lastMsgId: Option<int>
    /** The player_cards table: user_id to row. */
    var cards: map<int, PlayerCard>

    /** A database without an active_game row and without cards. */
    constructor Empty()
      ensures !present && cards == map[]
    {
      present, state, chatId, drawn, lobbyStart, lastMsgId := false, Idle, None, "", None, None;
      cards := map[];
    }

    /** A database holding the given active_game row and cards. */
    constructor Load(state: State, chatId: Option<int>, drawn: string, lobbyStart: Option<int>,
                     lastMsgId: Option<int>, cards: map<int, PlayerCard>)
      ensures present && this.state == state && this.chatId == chatId && this.drawn == drawn
      ensures this.lobbyStart == lobbyStart && this.lastMsgId == lastMsgId && this.cards == cards
    {
      this.present := true;
      this.state, this.chatId, this.drawn := state, chatId, drawn;
      this.lobbyStart, this.lastMsgId, this.cards := lobbyStart, lastMsgId, cards;
    }

    /**
     * One pass of game_engine. Without a row, in IDLE and in PAUSED nothing changes. A lobby
     * starts once it has expired and the game's chat holds a card. A running game draws one
     * number not drawn before, or returns to IDLE when none is left; a malformed history makes
     * get_next_bingo_number raise, the except clause logs it and nothing is committed.
     * `called` is the number announced, if any.
     */
    method Tick(now: real, sentId: int) returns (called: Option<int>)
      modifies this
      ensures present == old(present) && chatId == old(chatId) && lobbyStart == old(lobbyStart)
      ensures cards == old(cards)
      ensures !old(present) || old(state) == Idle || old(state) == Paused ==>
        state == old(state) && drawn == old(drawn) && lastMsgId == old(lastMsgId) && called == None
      ensures old(present) && old(state) == Lobby ==>
        && drawn == old(drawn) && lastMsgId == old(lastMsgId) && called == None
        && state == (if LobbyExpired(lobbyStart, now) && PlayerCount(cards, chatId) >= 1 then Running else Lobby)
      ensures old(present) && old(state) == Running && Draws.DrawnList(old(drawn)).None? ==>
        state == Running && drawn == old(drawn) && lastMsgId == old(lastMsgId) && called == None
      ensures old(present) && old(state) == Running && Draws.DrawnList(old(drawn)).Some? &&
              Draws.AllDrawn(Draws.DrawnList(old(drawn)).value) ==>
        state == Idle && drawn == old(drawn) && lastMsgId == old(lastMsgId) && called == None
      ensures old(present) && old(state) == Running && Draws.DrawnList(old(drawn)).Some? &&
              !Draws.AllDrawn(Draws.DrawnList(old(drawn)).value) ==>
        && state == Running && called.Some?
        && 1 <= called.value <= 75 && called.value !in Draws.DrawnList(old(drawn)).value
        && drawn == Draws.AppendEntry(old(drawn), Draws.Entry(called.value))
        && Draws.DrawnList(drawn) == Some(Draws.DrawnList(old(drawn)).value + [called.value])
        && lastMsgId == NextMessageId(old(lastMsgId), chatId, sentId)
      ensures Draws.DrawnInvariant(old(drawn)) ==> Draws.DrawnInvariant(drawn)
    {
      called := None;
      if !present || state == Idle {
        return;
      }
      if state == Lobby {
        var playerCount := PlayerCount(cards, chatId);
        if LobbyExpired(lobbyStart, now) && playerCount >= 1 {
          state := Running;
        }
      } else if state == Running {
        var next := Draws.NextNumber(drawn);
        match next
        case Err(_) =>
        case Ok(GameOver) =>
          state := Idle;
        case Ok(Next(entry, n)) =>
          Draws.DrawnListAppend(drawn, n);
          if Draws.DrawnInvariant(drawn) {
            Draws.DrawKeepsInvariant(drawn, n);
          }
          drawn := if drawn == "" then entry else drawn + "," + entry;
          lastMsgId := NextMessageId(lastMsgId, chatId, sentId);
          called := Some(n);
      }
    }

    /**
     * The /join handler for `user` writing in `chat`. Without a row the handler works on an
     * unsaved ActiveGame() whose state is None, so nothing happens. IDLE opens a lobby for the
     * chat. In LOBBY and RUNNING a user with a card for this chat gets no new one; otherwise
     * one card is generated and added. user_id is the table's primary key, so adding a card for
     * a user who holds one for another chat fails at commit and the whole join is rolled back.
     * PAUSED admits nobody.
     */
    method Join(user: int, chat: int, now: real) returns (outcome: JoinOutcome)
      modifies this
      ensures present == old(present) && lastMsgId == old(lastMsgId)
      ensures !old(present) || old(state) == Paused ==> outcome == NotAccepting && unchanged(this)
      ensures old(present) && old(state) != Paused && user in old(cards) && old(cards)[user].chatId != chat ==>
        outcome == CommitFailed && unchanged(this)
      ensures old(present) && old(state) != Paused && !(user in old(cards) && old(cards)[user].chatId != chat) ==>
        && state == (if old(state) == Idle then Lobby else old(state))
        && (old(state) == Idle ==> chatId == Some(chat) && drawn == "" && lobbyStart == Some(TruncateTime(now)))
        && (old(state) != Idle ==> chatId == old(chatId) && drawn == old(drawn) && lobbyStart == old(lobbyStart))
        && (user in old(cards) ==> outcome == AlreadyJoined && cards == old(cards))
        && (user !in old(cards) ==>
              && outcome == CardIssued && user in cards && cards == old(cards)[user := cards[user]]
              && cards[user].chatId == chat && Cards.IsCardData(cards[user].cardData)
              && exists c :: Cards.BandValid(c) && cards[user].cardData == Cards.Serialise(c))
    {
      if !present {
        return NotAccepting;
      }
      var savedState, savedChat, savedDrawn, savedStart := state, chatId, drawn, lobbyStart;
      if state == Idle {
        state, chatId := Lobby, Some(chat);
        drawn, lobbyStart := "", Some(TruncateTime(now));
      }
      if state == Lobby || state == Running {
        if user in cards && cards[user].chatId == chat {
          outcome := AlreadyJoined;
        } else {
          var card, cardData := Cards.GenerateCardNumbers();
          if user in cards {
            // The INSERT repeats an existing user_id: commit raises and the session rolls back.
            state, chatId, drawn, lobbyStart := savedState, savedChat, savedDrawn, savedStart;
            outcome := CommitFailed;
          } else {
            cards := cards[user := PlayerCard(chat, cardData)];
            outcome := CardIssued;
          }
        }
      } else {
        outcome := NotAccepting;
      }
    }
  }
}
