/**
 * The minimised engine of bingo_bot.py: the same lobby timer without a player-count guard,
 * a placeholder draw that appends "B-(k+1)" with no exhaustion check, a /join handler that
 * only opens the lobby, and the notice resume_running_game sends after a restart.
 */
module MiniEngine {
  import opened Wrappers
  import opened Text
  import opened Lifecycle
  import Draws

  /** The non-empty pieces, in order. */
  function NonEmpty(parts: seq<string>): (r: seq<string>)
    ensures |r| <= |parts|
    ensures forall k :: 0 <= k < |r| ==> r[k] != "" && r[k] in parts
    ensures multiset(r) == multiset(parts)["" := 0]
  {
    if parts == [] then []
    else
      var front := NonEmpty(parts[..|parts| - 1]);
      var last := parts[|parts| - 1];
      assert forall x :: x in parts[..|parts| - 1] ==> x in parts;
      assert parts == parts[..|parts| - 1] + [last];
      if last == "" then front else front + [last]
  }

  /** The non-empty comma-separated entries of a drawn_numbers string. */
  function Entries(drawn: string): seq<string>
  {
    NonEmpty(Split(drawn, ','))
  }

  /** The placeholder entry of the k-th call: always column B, whatever k is. */
  function Placeholder(k: int): string
  {
    "B-" + IntToStr(k)
  }

  /** What join_game replies: a new lobby, "joined the lobby", or "running or paused". */
  datatype JoinReply = LobbyOpened | InLobby | Busy

  /** The restart notice: a running game with its count of drawn entries, a lobby, or a generic one. */
  datatype Notice = GameResumed(drawnCount: nat) | LobbyResumed | Restarted

  /**
   * resume_running_game: no notice without a non-IDLE row or without a truthy chat id;
   * otherwise one chosen by the state, a running game reporting how many entries are drawn.
   */
  function ResumeNotice(present: bool, state: State, chatId: Option<int>, drawn: string): (r: Option<Notice>)
    ensures r.None? <==> !present || state == Idle || !Truthy(chatId)
    ensures r.Some? ==> (r.value.GameResumed? <==> state == Running) && (r.value.LobbyResumed? <==> state == Lobby)
    ensures r.Some? && r.value.GameResumed? ==> r.value.drawnCount == |Entries(drawn)|
  {
    if !present || state == Idle || !Truthy(chatId) then None
    else if state == Running then Some(GameResumed(|Entries(drawn)|))
    else if state == Lobby then Some(LobbyResumed)
    else Some(Restarted)
  }

  lemma {:induction false} NonEmptyKeeps(parts: seq<string>)
    requires forall k :: 0 <= k < |parts| ==> parts[k] != ""
    ensures NonEmpty(parts) == parts
    decreases |parts|
  {
    if parts != [] {
      NonEmptyKeeps(parts[..|parts| - 1]);
    }
  }

  /** Re-splitting what the tick joined gives back the same entries. */
  lemma EntriesOfJoin(parts: seq<string>)
    requires forall k :: 0 <= k < |parts| ==> parts[k] != "" && ',' !in parts[k]
    ensures Entries(Join(parts, ',')) == parts
  {
    if parts == [] {
      assert Split("", ',') == [""];
      assert [""][..0] == [];
    } else {
      SplitJoin(parts, ',');
      NonEmptyKeeps(parts);
    }
  }

  lemma PlaceholderText(k: nat)
    ensures Placeholder(k) != "" && ',' !in Placeholder(k)
    ensures Draws.EntryValue(Placeholder(k)) == Some(k)
  {
    var digits := IntToStr(k);
    assert '-' !in digits && ',' !in digits by {
      assert forall x :: 0 <= x < |digits| ==> IsDigit(digits[x]);
    }
    assert Placeholder(k) == "B" + ['-'] + digits;
    SplitCons("B", digits, '-');
    SplitWithoutSep(digits, '-');
    IntRoundTrip(k);
  }

  /**
   * A history of entries joined by the tick resumes with its entry count, so every tick of a
   * running game raises the count in the restart notice by one.
   */
  lemma ResumeCountsEntries(parts: seq<string>, chatId: Option<int>)
    requires Truthy(chatId)
    requires forall k :: 0 <= k < |parts| ==> parts[k] != "" && ',' !in parts[k]
    ensures ResumeNotice(true, Running, chatId, Join(parts, ',')) == Some(GameResumed(|parts|))
  {
    EntriesOfJoin(parts);
  }

  lemma NonEmptySnoc(p: seq<string>, x: string)
    ensures NonEmpty(p + [x]) == if x == "" then NonEmpty(p) else NonEmpty(p) + [x]
  {
    assert (p + [x])[..|p + [x]| - 1] == p;
  }

  /** Filtering keeps order: the non-empty pieces of a concatenation are those of each part in turn. */
  lemma {:induction false} NonEmptyConcat(a: seq<string>, b: seq<string>)
    ensures NonEmpty(a + b) == NonEmpty(a) + NonEmpty(b)
    decreases |b|
  {
    if b == [] {
      assert a + b == a;
    } else {
      var front, last := b[..|b| - 1], b[|b| - 1];
      assert a + b == (a + front) + [last] && b == front + [last];
      NonEmptyConcat(a, front);
      NonEmptySnoc(a + front, last);
      NonEmptySnoc(front, last);
    }
  }

  /** The entries a running game holds after k placeholder calls from an empty history. */
  function Placeholders(k: nat): seq<string>
  {
    if k == 0 then [] else Placeholders(k - 1) + [Placeholder(k)]
  }

  /** The numbers 1..k in order. */
  function UpTo(k: nat): (r: seq<int>)
    ensures |r| == k && forall x :: 0 <= x < k ==> r[x] == x + 1
  {
    if k == 0 then [] else UpTo(k - 1) + [k]
  }

  /** main.py's decoder reads the k placeholder calls as the numbers 1, 2, .., k. */
  lemma {:induction false} PlaceholdersDecode(k: nat)
    ensures forall x :: 0 <= x < |Placeholders(k)| ==> Placeholders(k)[x] != "" && ',' !in Placeholders(k)[x]
    ensures Draws.ParseDrawn(Placeholders(k)) == Some(UpTo(k))
  {
    if k > 0 {
      PlaceholdersDecode(k - 1);
      PlaceholderText(k);
      var p := Placeholders(k);
      assert p[..|p| - 1] == Placeholders(k - 1);
      assert '-' in Placeholder(k) by {
        assert Placeholder(k)[1] == '-';
      }
    }
  }

  /**
   * With no exhaustion check the placeholder history outgrows the 75 numbers: once a running
   * game has made more than 75 calls, main.py's decoder reads a history that breaks its
   * invariant (the number k is past 75).
   */
  lemma PlaceholderOutgrowsBands(k: nat)
    requires k > 75
    ensures Draws.DrawnList(Text.Join(Placeholders(k), ',')) == Some(UpTo(k))
    ensures !Draws.DrawnInvariant(Text.Join(Placeholders(k), ','))
  {
    PlaceholdersDecode(k);
    SplitJoin(Placeholders(k), ',');
    assert UpTo(k)[k - 1] == k;
  }

  class MiniStore {
    /** Whether the active_game row exists. */
    var present: bool
    var state: State
    var chatId: Option<int>
    var drawn: string
    var lobbyStart: Option<int>
    var lastMsgId: Option<int>

    /** A database holding the given active_game row. */
    constructor Load(state: State, chatId: Option<int>, drawn: string, lobbyStart: Option<int>, lastMsgId: Option<int>)
      ensures present && this.state == state && this.chatId == chatId && this.drawn == drawn
      ensures this.lobbyStart == lobbyStart && this.lastMsgId == lastMsgId
    {
      this.present := true;
      this.state, this.chatId, this.drawn := state, chatId, drawn;
      this.lobbyStart, this.lastMsgId := lobbyStart, lastMsgId;
    }

    /**
     * One pass of bingo_bot.py's game_engine. Without a row, in IDLE and in PAUSED nothing
     * changes; a lobby starts as soon as it has expired, whoever has joined; a running game
     * appends the placeholder for the next call and never stops.
     */
    method Tick(now: real, sentId: int)
      modifies this
      ensures present == old(present) && chatId == old(chatId) && lobbyStart == old(lobbyStart)
      ensures !old(present) || old(state) == Idle || old(state) == Paused ==>
        state == old(state) && drawn == old(drawn) && lastMsgId == old(lastMsgId)
      ensures old(present) && old(state) == Lobby ==>
        && drawn == old(drawn) && lastMsgId == old(lastMsgId)
        && state == (if LobbyExpired(lobbyStart, now) then Running else Lobby)
      ensures old(present) && old(state) == Running ==>
        && state == Running
        && drawn == Text.Join(Entries(old(drawn)) + [Placeholder(|Entries(old(drawn))| + 1)], ',')
        && Entries(drawn) == Entries(old(drawn)) + [Placeholder(|Entries(old(drawn))| + 1)]
        && Draws.EntryValue(Entries(drawn)[|Entries(drawn)| - 1]) == Some(|Entries(old(drawn))| + 1)
        && (|Entries(old(drawn))| >= 75 ==> !(1 <= |Entries(old(drawn))| + 1 <= 75))
        && lastMsgId == NextMessageId(old(lastMsgId), chatId, sentId)
    {
      if !present || state == Idle {
        return;
      }
      if state == Lobby {
        if LobbyExpired(lobbyStart, now) {
          state := Running;
        }
      } else if state == Running {
        var drawnList := Entries(drawn);
        var nextNumber := Placeholder(|drawnList| + 1);
        PlaceholderText(|drawnList| + 1);
        drawnList := drawnList + [nextNumber];
        EntriesOfJoin(drawnList);
        drawn := Text.Join(drawnList, ',');
        lastMsgId := NextMessageId(lastMsgId, chatId, sentId);
      }
    }

    /**
     * bingo_bot.py's /join handler: IDLE opens a lobby for the chat (keeping drawn_numbers as
     * it was); in every other state the row is left as it is. The handler needs the row.
     */
    method Join(chat: int, now: real) returns (reply: JoinReply)
      requires present
      modifies this
      ensures old(state) == Idle ==>
        && reply == LobbyOpened && state == Lobby && chatId == Some(chat)
        && lobbyStart == Some(TruncateTime(now))
        && present && drawn == old(drawn) && lastMsgId == old(lastMsgId)
      ensures old(state) != Idle ==> unchanged(this)
      ensures old(state) == Lobby ==> reply == InLobby
      ensures old(state) == Running || old(state) == Paused ==> reply == Busy
    {
      if state == Idle {
        state, chatId := Lobby, Some(chat);
        lobbyStart := Some(TruncateTime(now));
        reply := LobbyOpened;
      } else if state == Lobby {
        reply := InLobby;
      } else {
        reply := Busy;
      }
    }

    /** The restart notice for the stored row. */
    function Resume(): (r: Option<Notice>)
      reads this
      ensures r.None? <==> !present || state == Idle || !Truthy(chatId)
    {
      ResumeNotice(present, state, chatId, drawn)
    }
  }
}
