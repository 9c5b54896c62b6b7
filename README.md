# MegaBingo round logic in Dafny

This project models the round logic of the MegaBingo Telegram bot. It covers two engines.

- **main.py (V7.7).** It generates a card from five disjoint 15-number bands and writes it as `B:..|I:..|N:..|G:..|O:..`. The renderer reads that string back and decides what each of the 25 cells shows. The draw history is stored as comma-joined `col-n` entries. `get_next_bingo_number` picks a number not yet drawn. A background loop moves the single game row through IDLE, LOBBY, RUNNING and PAUSED. The `/join` handler opens a lobby and hands out cards.
- **bingo_bot.py (minimised).** It has the same lobby timer but no player-count guard. Its draw is a placeholder `B-(k+1)` with no exhaustion check. Its `/join` only opens the lobby. On restart it sends a notice that depends on the state.

Modules:

| module | contents |
|---|---|
| `Wrappers` | Option and Result. |
| `Text` | Python's `split`, `join`, `str` and `int`, with round-trip lemmas. |
| `Cards` | The generator, the serialiser and the parser of card-data strings. |
| `Draws` | The drawn-number codec, the remaining numbers and `get_next_bingo_number`. |
| `CardView` | The renderer's parse loops and its cell-label loop. |
| `Lifecycle` | The state enum, Python truthiness, the lobby timer and the edit-or-send choice for the call message. |
| `Engine` | main.py's database (game row plus `player_cards`) as class `Store`, with `Tick` and `Join`. |
| `MiniEngine` | bingo_bot.py's row as class `MiniStore`, with `Tick`, `Join` and the restart notice. |

Inputs from the outside world become parameters or choices:

- The clock is `now: real`.
- The id of a message the bot sends is `sentId`.
- `random.sample` and `random.choice` become an arbitrary choice (`:|`) among the values that satisfy the constraints.

Behaviours of the code that the model keeps, and that the contracts state:

- **Falsy values.** A `lobby_start_time`, `chat_id` or message id of 0 counts as false, like None.
- **Truncated start time.** The lobby start is `int(time.time())`, which truncates. A lobby can therefore start up to one second before 60 full seconds have passed (`Lifecycle.LobbyWindow`).
- **No row in main.py.** With no `active_game` row, `join_game` works on an unsaved `ActiveGame()`. Its state is None until it is inserted, so the handler changes nothing.
- **One card per user.** `user_id` alone is the primary key of `player_cards`. A user who holds a card for one chat and joins from another gets a new card that fails to insert at commit. The session rolls back, and that includes an IDLE→LOBBY change made in the same handler (`CommitFailed`).
- **Cards are never deleted.** A returning user keeps the card from an earlier round.
- **main.py's IDLE join** resets `drawn_numbers` but not `last_call_message_id`.
- **bingo_bot.py's IDLE join** does not reset `drawn_numbers`.
- **Malformed history.** An entry such as `B-x` makes `get_next_bingo_number` raise. The loop's `except` logs the error and commits nothing, so that tick changes nothing.
- **Hidden N number.** The renderer shows N's entries 0, 1 and 3. Entry 2 of N is never shown, and row 4 of N is blank (`CardView.ThirdNumberHidden`).

## Model

| member | source | states |
|---|---|---|
| `Text.Split` | main.py:64-66 | Splitting never yields an empty list, and no piece contains the separator. |
| `Text.JoinSplit` | main.py:64-66 | Joining the pieces of a split gives the string back, so a split loses no text. With `SplitJoin`, split and join are inverse. |
| `Text.SplitJoin` | main.py:58-66 | Splitting a joined list gives the list back when no piece holds the separator. |
| `Text.SplitSnoc` | main.py:151 | Appending a separator and a separator-free entry adds exactly that entry to the split. |
| `Text.IntRoundTrip` | main.py:58-66 | Parsing the decimal text of any integer gives the integer back. |
| `Cards.GenerateCardNumbers` | main.py:51-59 | B, I, G and O each hold 5 distinct numbers in their bands, and N holds 4 in 31–45. The data string is the serialised card, and it parses back to the card's dict. |
| `Cards.ParseSerialise` | main.py:58-66 | Parsing the serialised items yields exactly the dict the items make. This needs non-empty columns and keys without a bar or a colon. |
| `Cards.ToMapOfBandValid` | main.py:52-57 | The dict of a band-valid card maps each letter to that column's numbers and keeps the band invariant. |
| `Draws.ColumnOfBand` | main.py:112-116 | For 1..75 the letter given is exactly the card column whose band holds the number. |
| `Draws.EntryText` | main.py:105-118 | The entry for n holds no comma, holds a dash, and decodes back to n. |
| `Draws.DrawnListAppend` | main.py:151 | Appending the entry for n adds exactly n to the end of the decoded history. |
| `Draws.AvailableFrom` | main.py:104-106 | A number is remaining exactly when it lies in the range and is not in the drawn list. |
| `Draws.NextNumber` | main.py:103-118 | It errs exactly when the history does not decode. It says game over exactly when every number 1..75 is drawn. Otherwise it returns a number in 1..75 that was not drawn, as the entry with its band letter. |
| `Draws.DrawKeepsInvariant` | main.py:143-152 | Recording an undrawn number keeps the history decodable, repeat-free and within 1..75, and one entry longer. |
| `Draws.HistoryBound` | main.py:104-108 | A well-formed history has at most 75 numbers, and game over comes exactly when it has 75. |
| `CardView.DrawnSet` | main.py:67-69 | A number is in the highlight set exactly when some drawn entry decodes to it. Malformed entries are skipped. |
| `CardView.FirstMissing` | main.py:82-86 | Finds the first of B, I, N, G, O that the parsed dict lacks, which is the key whose lookup raises. |
| `CardView.ParseCardData` | main.py:63-66 | The item loop builds the parsed dict, or fails as the parse specification does. |
| `CardView.CollectDrawn` | main.py:67-69 | The drawn loop builds exactly the highlight set. |
| `CardView.LabelCells` | main.py:80-97 | The 5×5 loop raises for the first missing column, and otherwise yields the label grid: FREE at N row 2, `numbers[j]` while `j` is in range, blank after. |
| `CardView.RenderCard` | main.py:61-97 | The labels or the error the renderer raises, matching the render specification. |
| `CardView.RenderGenerated` | main.py:86-96 | A generated card renders. B, I, G and O show their 5 numbers top to bottom. N shows FREE at row 2, its entries 0, 1 and 3 at rows 0, 1 and 3, and a blank at row 4. A number is highlighted iff it is drawn. |
| `CardView.ThirdNumberHidden` | main.py:90-96 | On a generated card, N's entry 2 appears in no cell. |
| `CardView.HighlightMatchesHistory` | main.py:67-69 | For a history that decodes, the renderer's highlight set equals the set of numbers that the engine's decoding gives. |
| `Lifecycle.TruncateTime` | main.py:185 | The stored lobby start is the clock truncated toward zero, within one second of it. |
| `Lifecycle.LobbyWindow` | main.py:134 | A lobby has expired once more than 60 s have passed since it opened, and has not expired while at most 59 s have. |
| `Lifecycle.NextMessageId` | main.py:155-162 | The message id is kept when there is a message to edit. It is set to the new id when there is only a chat, and left as is without a chat. |
| `Engine.Store.Tick` | main.py:124-170 | Covers every state: no change without a row or in IDLE or PAUSED. LOBBY→RUNNING happens iff the start is set, more than 60 s have passed and the chat has at least one card. In RUNNING, a malformed history changes nothing. An exhausted history gives IDLE with `drawn_numbers` unchanged. Otherwise exactly one new number is appended, and the history invariant is preserved. |
| `Engine.Store.Join` | main.py:178-206 | With no row or in PAUSED, nothing changes. IDLE→LOBBY sets the chat, an empty history and the start time. A user with a card for this chat gets none. A new user gets exactly one card. Its data is the serialisation of a band-valid card and parses back to one. A card held for another chat makes the commit fail and rolls everything back. |
| `MiniEngine.NonEmpty` | bingo_bot.py:51 | The result holds every non-empty piece of the input, as often as it occurs there, and no empty piece. |
| `MiniEngine.NonEmptyConcat` | bingo_bot.py:51 | The filter keeps order: the non-empty pieces of a concatenation are those of each part, in turn. |
| `MiniEngine.ResumeNotice` | bingo_bot.py:105-115 | There is no notice iff there is no non-IDLE row or the chat is falsy. RUNNING reports the count of non-empty entries, LOBBY gives the lobby notice, and anything else the generic one. |
| `MiniEngine.EntriesOfJoin` | bingo_bot.py:51-54 | Re-splitting the comma-joined entries and dropping the empty ones gives the entries back. |
| `MiniEngine.PlaceholderText` | bingo_bot.py:53 | The placeholder for k is non-empty, has no comma and decodes to k. |
| `MiniEngine.ResumeCountsEntries` | bingo_bot.py:108-111 | A history written by the tick resumes with its exact entry count. |
| `MiniEngine.PlaceholdersDecode` | bingo_bot.py:51-54 | The history written by k placeholder calls holds non-empty, comma-free entries. main.py's decoder reads it as 1, 2, .., k. |
| `MiniEngine.PlaceholderOutgrowsBands` | bingo_bot.py:49-54 | With no exhaustion check, a history of more than 75 placeholder calls decodes to 1..k. It breaks the history invariant that main.py's engine keeps (repeat-free within 1..75). |
| `MiniEngine.MiniStore.Tick` | bingo_bot.py:34-74 | There is no change without a row or in IDLE or PAUSED. LOBBY→RUNNING happens iff the start is set and more than 60 s have passed, with no player check. RUNNING stays RUNNING and appends `B-(k+1)` to the k non-empty entries, keeping the earlier entries in order. The new entry decodes to k+1, which lies outside 1..75 once k ≥ 75. |
| `MiniEngine.MiniStore.Join` | bingo_bot.py:80-94 | IDLE→LOBBY sets the chat and the start time and keeps the history. Every other state leaves the row unchanged. |
| `MiniEngine.MiniStore.Resume` | bingo_bot.py:105-110 | The stored row yields no notice exactly when it is IDLE, absent or has a falsy chat. |

## Left out

- Telegram I/O is not modelled: replies, photos, sent and edited messages and their texts, handler registration and polling. Sending is assumed to succeed. In the source, a failed send or edit after a draw skips the commit, so the draw is lost. A failed send at the lobby transition ends the loop task.
- SQLAlchemy sessions and the schema are not modelled. Each handler and each loop pass is one atomic step on the in-memory row and card table. The scheduling between the asyncio loop and the handlers, and the sleeps, are not modelled.
- Randomness is modelled as an arbitrary choice, not a distribution.
- PIL drawing, fonts and PNG encoding are not modelled. Only the label and highlight decision of each cell is kept.
- `view_card`, `start_command`, `all_other_messages` and `main` are I/O handlers and are not modelled. `view_card` only feeds the renderer the split history.
- main.py's `resume_running_game` is not modelled separately. It makes the same decision as bingo_bot.py's version, with different wording, and `MiniEngine.ResumeNotice` models that decision.
- The `pool_size` column is never read or written. Win detection, payouts, pools, decoys and claims do not exist in this code.
- `MiniEngine.MiniStore.Join` requires the row to exist. Without it the bingo_bot.py handler fails on the missing row before it changes anything.
- `Text.ParseInt` accepts only an optional sign and ASCII digits. Python's `int` also accepts surrounding whitespace, underscores between digits and non-ASCII digits. Such strings never come from the program's own writers.
- bingo_bot.py's `main` (bingo_bot.py:140) starts its loop through `app.loop.create_task`. main.py:273-277 notes that `Application` has no `loop` attribute, so in the source as written this line fails before polling, and bingo_bot.py's `game_engine` never starts. `MiniEngine.MiniStore.Tick` models what one pass of that loop would do if it were started. Process start-up is not part of the model.
