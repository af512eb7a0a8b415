# term-nim in Dafny

A model of the key-driven core of term-nim. term-nim is a two-player Nim game: the players take objects from piles in turn until none are left. It runs in a terminal, and the two players' processes talk to each other over HTTP. The model covers five parts:

- **The game engine** (`game.dfy`, module `Game`) covers the pile-count and pile-size choices and the two roles, Host and Guest. Its class `GameState` holds the piles, the selected pile, the staged amount, the side that must move next, and the side the copy belongs to. Its methods `Pick`, `Next`, `Previous` and `HandleKey` update those fields in place. Each of them is proved against a pure function on the value type `GameData`, which is the state as it is cloned and sent to the peer. `IsGameOver` changes nothing; its scanning loop is proved to answer exactly `AllEmpty(piles)`. Lemmas about those functions state the rules:
  - a player cannot act out of turn;
  - Enter takes objects only when a positive amount is staged;
  - moving the selection wraps around at both ends;
  - a pick removes exactly the staged amount.
- **The list widget** (`stateful_list.dfy`) is a fixed list of items with a cursor that wraps around.
- **The text form** (`form.dfy`) is a character buffer with append and Backspace.
- **The menu state machine** (`menu.dfy`) has four screens: the main menu, the game settings, the address form for joining a peer, and the waiting screen. `HandleKey` takes one key and returns the next screen. It updates the embedded lists and the form in place.
- **The peer link** (`comms.dfy`) covers:
  - the client's URLs and requests, including the role flip applied to every pushed state;
  - a `Server` class that holds the FIFO message queue and the shared game state;
  - the handlers for `/`, `/connect` and `/game`.

  `replication.dfy` combines key handling, the push and the `game` handler for both copies of a session. It proves that after the handshake, any sequence of keys on either side leaves the guest's copy equal to the host's copy with only the role flipped. It also proves that exactly one side is on turn at any time.

Points where the code's behaviour is easy to misread; the model follows the code:
- `GameState::new` gives the move to the side passed in (src/game.rs:112).
- Up decreases the staged amount and Down increases it.
- Down with nothing staged gives 1 without comparing it to the pile. The model keeps this and logs it under Findings.
- The `connect` handler flips the role before it answers (src/comms.rs:101-103), so its answer is already the joiner's view.
- `handle_key` returns true for every arrow key and Enter on the player's turn, even when nothing changed (for example, Enter with nothing staged).
- The settings screen's Enter only shows a fixed waiting message. ConnectToPeer forwards every key, Enter included, to its form. There is no active-game screen in the menu.
- `src/ui/menu.rs:132` calls `StringForm::new` with two arguments, while `src/ui/form.rs:16` takes three. The model creates that form with no initial text.

## Model

| member | source | states |
|---|---|---|
| Game.Amount | src/game.rs:21-27 | the number of piles is 2, 5 or 10 |
| Game.QuantityLimit | src/game.rs:48-54 | a pile's starting limit is between 5 and 20 |
| Game.ChoiceValues | src/game.rs:20-55 | Two/Five/Ten give 2/5/10 and Small/Medium/Large give 5/10/20; different choices give different values |
| Game.Flip | src/game.rs:96-101 | flipping always gives the other side |
| Game.FlipInvolutive | src/game.rs:96-101 | flipping twice gives the original side |
| Game.NewGame | src/game.rs:105-116 | a new game has exactly `Amount` piles, each between 1 and the size limit; the selection is 0, nothing is staged, and both the side to move and the own side are the given side |
| Game.NewGameNotOver | src/game.rs:105-116 | a new game is not over and holds at least one object per pile |
| Game.GameState.constructor | src/game.rs:105-116 | the fields of a fresh state equal `NewGame` of the choices, the side and the random pile values |
| Game.SelectNext | src/game.rs:123-125 | the selection stays in range, moves one pile right and wraps from the last pile to 0; no other field changes |
| Game.SelectPrevious | src/game.rs:127-129 | the selection stays in range, moves one pile left and wraps from 0 to the last pile; no other field changes |
| Game.NextPreviousInverse | src/game.rs:123-129 | on a well-formed state, next then previous gives the original state, and so does previous then next |
| Game.GameState.Next | src/game.rs:123-125 | the object's new state is `SelectNext` of its old state |
| Game.GameState.Previous | src/game.rs:127-129 | the object's new state is `SelectPrevious` of its old state |
| Game.Picked | src/game.rs:118-121 | the selected pile loses the staged amount and every other pile is unchanged; the selection and own side are kept, nothing is staged afterwards, and the side to move changes |
| Game.PickedRemovesAmount | src/game.rs:118-121 | a pick lowers the number of objects on the table by exactly the staged amount |
| Game.GameState.Pick | src/game.rs:118-121 | the object's new state is `Picked` of its old state |
| Game.GameState.IsGameOver | src/game.rs:131-133 | the answer is true exactly when every pile is 0 |
| Game.AllEmptyIffNoneLeft | src/game.rs:131-133 | with no negative pile, the game is over exactly when the total left is 0 |
| Game.AmountAfterUp | src/game.rs:149-152 | Up on a staged amount gives one less, or 0 when that would be negative: never a negative amount, and exactly one less on a positive amount |
| Game.AmountAfterDown | src/game.rs:156-158 | Down on a staged amount gives one more, or the pile when that would exceed it: never more than the pile, and exactly one more below the pile |
| Game.UpDownInverse | src/game.rs:149-158 | Up undoes Down on an amount below the pile, and Down undoes Up on a positive amount within the pile |
| Game.WellFormedInBounds | src/game.rs:118-173 | on a state with a pile and the selection on a pile, `handle_key` can run any key without panicking |
| Game.AfterKey | src/game.rs:136-173 | defined wherever `handle_key` does not panic; keeps a well-formed state well-formed, and Left or Right makes any state with a pile well-formed; never changes the own side or the number of piles; a key it does not handle changes nothing |
| Game.StagingKeysOnlyStage | src/game.rs:149-162 | on its turn, Up and Down change only the staged amount; with nothing staged Up stages 0 and Down stages 1; Up always stages a non-negative amount, and Down on a staged amount never stages more than the selected pile |
| Game.GameState.HandleKey | src/game.rs:136-173 | the result is `Handles` (on turn, and an arrow key or Enter); the new state is `AfterKey` of the old state |
| Game.OutOfTurnIgnored | src/game.rs:137-139 | out of turn no key is handled and the state is entirely unchanged |
| Game.ArrowsWrap | src/game.rs:141-148 | Left and Right clear the staged amount and move the selection one pile left or right with wrap-around (`SelectPrevious`, `SelectNext`), whatever was staged; Right then Left returns to the same pile |
| Game.EnterPicksOnlyPositive | src/game.rs:163-169 | Enter picks exactly when a positive amount is staged; otherwise it changes nothing |
| Game.OnlyPicksTouchPiles | src/game.rs:136-173 | a key changes the piles only when it is Enter on the player's turn; that key is then a pick and hands the turn over |
| Game.EmptyFirstPileExample | src/game.rs:156-169 | on piles 3, 4, 5, pressing Down three times stages 3; Enter then gives piles 0, 4, 5 with the guest to move |
| Game.DownFromNoneOverdraws | src/game.rs:156-169 | on an empty selected pile with nothing staged, Down stages 1 and Enter leaves the pile at -1 |
| Game.AfterKeyClamped | src/game.rs:156-162 | the corrected key handling keeps a well-formed state well-formed and ignores keys it does not handle |
| Game.ClampedKeepsConsistent | src/game.rs:136-173 | with the corrected Down, no pile goes negative, a staged amount stays between 0 and the selected pile, and every change to the piles lowers the total |
| Game.GameState.Overwrite | src/comms.rs:110 | the object's whole state becomes the given value |
| StatefulLists.NextIndex | src/ui/stateful_list.rs:21-33 | the cursor moves one item down and goes back to 0 from the last item or from nothing; on a non-empty list the result is in range |
| StatefulLists.PreviousIndex | src/ui/stateful_list.rs:35-47 | the cursor moves one item up, goes to the last item from 0, and goes to 0 from nothing; from a valid cursor the result is in range |
| StatefulLists.NextPreviousInverse | src/ui/stateful_list.rs:21-47 | from a valid cursor, next then previous comes back to it, and so does previous then next |
| StatefulLists.NextTimesWraps | src/ui/stateful_list.rs:21-33 | `k` steps down land `k` places further, counting round the list; after `len` steps the cursor is back where it started |
| StatefulLists.StatefulList.WithItems | src/ui/stateful_list.rs:15-19 | the items are stored unchanged and the first one is selected |
| StatefulLists.StatefulList.Next | src/ui/stateful_list.rs:21-33 | the cursor becomes `NextIndex` of the old cursor; the items are unchanged and a valid cursor stays valid |
| StatefulLists.StatefulList.Previous | src/ui/stateful_list.rs:35-47 | the cursor becomes `PreviousIndex` of the old cursor; the items are unchanged and a valid cursor stays valid |
| StatefulLists.StatefulList.Unselect | src/ui/stateful_list.rs:49-51 | the cursor becomes None and the items are unchanged |
| Forms.Typed | src/ui/form.rs:52-62 | one key lengthens the text by at most one character |
| Forms.TypedAppends | src/ui/form.rs:54-56 | a character is appended at the end and the earlier text is kept |
| Forms.BackspaceDropsLast | src/ui/form.rs:57-59 | Backspace removes exactly the last character, and does nothing to an empty text |
| Forms.OtherKeysKeepText | src/ui/form.rs:60 | any other key leaves the text unchanged |
| Forms.TypingAppends | src/ui/form.rs:54-56 | typing a word character by character appends the word |
| Forms.TypeThenEraseRestores | src/ui/form.rs:52-62 | typing a word and then pressing Backspace once per character gives the original text back |
| Forms.StringForm.constructor | src/ui/form.rs:16-22 | the text is the given initial text, or empty when there is none; the label and width are stored |
| Forms.StringForm.HandleKey | src/ui/form.rs:52-62 | the text becomes `Typed` of the old text; the label and width never change |
| Forms.StringForm.Consume | src/ui/form.rs:64-66 | returns the current text and changes nothing |
| Menu.InitialMenu | src/lib.rs:22 | the application starts in the main menu with nothing focused |
| Menu.OpenGameSettings | src/ui/menu.rs:135-149 | the settings screen opens with no focus, amounts Two/Five/Ten and sizes Small/Medium/Large, and both cursors at 0 |
| Menu.OpenConnectToPeer | src/ui/menu.rs:130-134 | the address form opens with an empty text, label "Connect to peer" and width 20 |
| Menu.HandleKey | src/ui/menu.rs:120-203 | main menu: Left/Right focus a choice, Enter with no focus focuses the left choice, and Enter opens settings or the address form; settings: Left/Right move the focus, Up/Down move only the focused list's cursor (nothing happens with no focus), Enter goes to the waiting screen or first sets focus; the address form forwards every key to the form; the waiting screen and other keys change nothing |
| Comms.RoleFlipped | src/comms.rs:33-34 | the copy differs from the state in the own-side field only, and that field names the other side |
| Comms.RoleFlippedInvolutive | src/comms.rs:101-102 | flipping the role twice gives the original state back |
| Comms.NewClient | src/comms.rs:11-16 | the client URL is "http://" followed by the address |
| Comms.NewClientInjective | src/comms.rs:11-16 | different addresses give different clients |
| Comms.ConnectToGame | src/comms.rs:22-29 | the handshake posts the joiner's address to the client URL followed by "/connect" |
| Comms.SendGameState | src/comms.rs:31-37 | the push goes to the client URL followed by "/game"; its body is the state with only the own side flipped |
| Comms.RoutesDistinct | src/comms.rs:26-32 | from the same client, a handshake and a push never go to the same URL |
| Comms.Server.constructor | src/comms.rs:67-73 | a new server has the given URL and shared state and an empty message queue |
| Comms.Server.HandleRoot | src/comms.rs:88-90 | answers "Working!" and changes nothing |
| Comms.Server.HandleConnect | src/comms.rs:92-104 | `GuestConnected(address)` goes at the back of the queue, behind the earlier messages; the shared state is unchanged; the answer is the shared state with the role flipped |
| Comms.Server.HandleGame | src/comms.rs:106-117 | the shared state is replaced as a whole by the received state, `UpdatedGameState` goes at the back of the queue, and the answer is "OK" |
| Comms.JoinGame | src/comms.rs:22-29 | a handshake that reaches the host returns the host's state with the role flipped and queues the joiner's address |
| Comms.DeliverGameState | src/comms.rs:31-37 | after a push, the receiver stores the sender's state with only the role flipped; the sender's state is untouched |
| Replication.Joined | src/comms.rs:92-104 | right after the handshake the guest's copy is the host's copy with only the role flipped |
| Replication.AfterPress | src/comms.rs:31-37 | one key, followed by a push when the key is handled, keeps both copies well-formed and the clients unchanged |
| Replication.Play | src/comms.rs:31-37 | a sequence of keys and pushes keeps both copies well-formed |
| Replication.TurnExclusive | src/game.rs:137-139 | in mirrored copies exactly one side is on turn |
| Replication.PressKeepsMirrored | src/comms.rs:106-117 | one key on either side, with its push, keeps the guest's copy equal to the host's copy with the role flipped |
| Replication.PlayKeepsMirrored | src/comms.rs:106-117 | any sequence of keys and pushes keeps the copies mirrored |
| Replication.SessionStaysInStep | src/comms.rs:92-117 | from a new host game and the handshake, every sequence of keys leaves the copies mirrored, with exactly one side on turn |
| Replication.OffTurnPressIgnored | src/game.rs:136-139 | a key pressed by the side that is not on turn changes neither copy |
| Replication.OverdrawReachable | src/game.rs:156-169 | in a new session with piles 1 and 5, under a driver that pushes after every handled key, four keys leave a pile at -1 in both copies |

## Left out

- All `render` functions, `src/ui/popup.rs` and `src/ui/utils.rs` are left out because they are terminal drawing and layout. A popup is kept only as its title and body.
- `src/main.rs` is left out: terminal setup, event polling, the tick timer and the global q/Esc quit are all input and output. The tick hook `app.on_tick()` is commented out (src/main.rs:87) and no code reads the server's message queue, so the model has no consumer for it.
- The `Game` arm of `App` in `src/lib.rs` is left out because it is `todo!()` (src/lib.rs:29, 36). Only the starting screen is modelled. No code in the repository calls `GameState::handle_key`, `send_game_state`, `connect_to_game` or `Server::new`.
- Replication.AfterPress: assumes a driver that the repository does not have. The assumed driver applies `handle_key` to the pressing side's copy, and when `handle_key` reports the key as handled it pushes that copy with `send_game_state` to the peer's `game` handler before the next key. The session lemmas hold for that driver only.
- Panics are not modelled as an outcome; the preconditions exclude the states in which the source panics. These are `unwrap` on an unstaged amount in `pick` (src/game.rs:119, `Game.Picked`), `% len()` on an empty pile list in `next` and `previous` (src/game.rs:124, 128, `Game.SelectNext`, `Game.SelectPrevious`), indexing with a selection past the last pile (src/game.rs:119, 158, `Game.KeyInBounds`), and `len() - 1` on an empty list (src/ui/stateful_list.rs:24, 39, `StatefulLists.NextIndex`, `StatefulLists.PreviousIndex`).
- Randomness is left out. The pile values of a new game are the parameter `rolls`, each between 1 and the size limit, as the generator draws them.
- HTTP, axum routing and binding (`Server::start`), `check_connection`, locking and async are left out. Each handler is one sequential step on a plain object. The client functions give the request that would be sent. A network or decoding failure, which the source returns as an error, is not modelled, and delivery is taken to succeed and to keep its order.
- JSON encoding and decoding of `GameState` is left out because it is library code. A sent state reaches the peer as the same value.
- The list widget's scroll offset is left out because only drawing uses it.
- Game.AfterKey: does not model Rust's integer widths (`i8` piles and amounts, `usize` selection), because every value the model produces stays within a few units of 0..20. Only repeated overdraws (see Findings) could push a pile toward the `i8` minimum.
- Forms.StringForm.constructor: stores the `u16` width as an unbounded natural number, because the width is used only for drawing.

## Findings

| source | as written | input that shows it | evidently intended | confidence | as-written member | corrected member |
|---|---|---|---|---|---|---|
| src/game.rs:156-161 | Down with nothing staged stages 1 without comparing it to the selected pile, and Enter then subtracts it | a new game with piles 1 and 5, with every handled key pushed to the peer: the host presses Down and Enter, emptying pile 1; the guest, still on pile 1, presses Down and Enter; pile 1 becomes -1 | the staged amount never exceeds the selected pile, as when an amount is already staged, so Down on an empty pile stages 0 | high, not executed | Replication.OverdrawReachable | Game.AfterKeyClamped |

`Game.DownFromNoneOverdraws` shows the same fault on a single state. `Game.ClampedKeepsConsistent` proves the intended property of the corrected rule: no pile ever goes negative, a staged amount stays within the selected pile, and every pick lowers the total. The engine class itself follows the code as written.
