/**
 * What both engines share: the GameState enum, Python truthiness of the nullable integer
 * columns, the lobby timer and the choice between editing and sending the call message.
 */
module Lifecycle {
  import opened Wrappers

  datatype State = Idle | Lobby | Running | Paused

  /** Seconds a lobby stays open before a tick may start the game. */
  const LobbySeconds: int := 60

  /** Python truthiness of a nullable integer column: None and 0 are false. */
  predicate Truthy(v: Option<int>)
  {
    v.Some? && v.value != 0
  }

  /** The clock reading as stored for a lobby: truncated toward zero. */
  function TruncateTime(now: real): (t: int)
    ensures 0.0 <= now ==> t as real <= now < t as real + 1.0
    ensures now < 0.0 ==> t as real - 1.0 < now <= t as real
  {
    if now >= 0.0 then now.Floor else -((-now).Floor)
  }

  /** A lobby has expired when its start is truthy and strictly more than 60 seconds lie behind it. */
  predicate LobbyExpired(lobbyStart: Option<int>, now: real)
  {
    Truthy(lobbyStart) && now - lobbyStart.value as real > LobbySeconds as real
  }

  /**
   * A lobby openedAt at clock reading `openedAt` (at least one second past the epoch, so the
   * stored start is truthy) has expired at `now` once more than 60 seconds have passed, and
   * has not yet expired while at most 59 seconds have; truncating the start makes it expire
   * up to one second early.
   */
  lemma LobbyWindow(openedAt: real, now: real)
    requires openedAt >= 1.0
    ensures now - openedAt > 60.0 ==> LobbyExpired(Some(TruncateTime(openedAt)), now)
    ensures now - openedAt <= 59.0 ==> !LobbyExpired(Some(TruncateTime(openedAt)), now)
  {
  }

  /**
   * last_call_message_id after a call: kept when there is a message to edit, set to the id of
   * the newly sent message when there is only a chat, untouched without a chat.
   */
  function NextMessageId(lastMsgId: Option<int>, chatId: Option<int>, sentId: int): (r: Option<int>)
    ensures Truthy(lastMsgId) ==> r == lastMsgId
    ensures !Truthy(chatId) ==> r == lastMsgId
    ensures !Truthy(lastMsgId) && Truthy(chatId) ==> r == Some(sentId)
  {
    if Truthy(lastMsgId) && Truthy(chatId) then lastMsgId
    else if Truthy(chatId) then Some(sentId)
    else lastMsgId
  }
}
