# shoppingList in Dafny

A model of the interactive core of *shoppingList*, a React application
that helps an elderly shopper through a trip to the supermarket and keeps
them busy with small brain-training games and rewards. The model covers:

- the **guided shopping chat** (`ChatSimulation`): a five-step conversation
  — arrival, inquiry, finding each item, checkout, done — over a fixed item
  list, with a message dispatcher that only appends, a delay per message and
  a typing renderer that reveals a message one character at a time;
- the **map overlay** (`MapDisplay`): one marker per item, placed by id and
  coloured by whether it was scanned;
- the **memory card game** (`MemoryGame`): the deck of pairs and its
  Fisher–Yates shuffle, the flip guard, matching, streaks, the score
  formula, the hint budget, the clock display and the board size;
- the **typing game** (`TypingGame`): character counters, scoring, the
  on-screen keyboard and the countdown (shared with the quiz as `Countdown`);
- the **arithmetic quiz** (`ArithmeticQuiz`): question generation, the
  answer pad, answer checking and accuracy;
- the **mahjong discard quiz** (`MahjongQuiz`): tile codes, their names,
  pictures (the Mahjong Tiles block of the Unicode Standard) and colours,
  the ten questions and the quiz's progression;
- the **reward screens** (`Rewards`, `QuestRewards`): redemption guarded
  by the balance, the count-up of points and achievement progress;
- the **contact page** (`ContactForm`): validation with its unanchored
  email pattern, per-field error clearing, the three steps and the jokes;
- the **restock suggestions** (`Restock`): the map/filter/sort pipeline
  over the purchase history and adding to the shopping list without duplicates;
- the **ranking** (`Ranking`): the three ranked tables, medals, the detail
  toggle and the period change;
- `Text`: the few JavaScript string operations the screens rely on
  (`trim`, `toString`, `padStart`, `slice(0, -1)`, `parseInt`, `parseFloat`).

Each screen's React state is a class whose fields the handlers update;
every handler is a method whose `requires` says which button is on screen
and whose `ensures` states the whole new state. Each timer callback is a
method of its own (`...Timeout`, `...Tick`), and a callback that sees the
state of the moment its timer was set takes that state from a queue the
scheduling method filled. `Math.random` draws and the current date are
parameters. The rules themselves are pure functions with lemmas.

Three facts about the code shape the chat and the map. The chat never
marks an item scanned, so every map marker stays red. Its items and its
list recap are constants. Marker positions are computed from the item's
id, with no random draw.

## Model

| member | source | states |
|---|---|---|
| `ChatSimulation.Delays` | src/components/ChatSimulation.tsx:60-86 | the dispatcher pauses once per message, in order, for `computeDelay` of that message (characters × 50 ms + 500 ms) |
| `ChatSimulation.Revealed` | src/components/ChatSimulation.tsx:31-43 | what a message shows after some ticks is always a prefix of its text (with updaters read when queued; see Findings) |
| `ChatSimulation.DelayCoversReveal` | src/components/ChatSimulation.tsx:31-62 | the dispatcher's pause is the reveal time plus exactly 500 ms, so each message is fully shown before the next one is appended, and never earlier than its length in ticks (with updaters read when queued; see Findings) |
| `ChatSimulation.TypingMessage.constructor` | src/components/ChatSimulation.tsx:28-33 | a mounted message starts empty, at index 0, with its interval running |
| `ChatSimulation.TypingMessage.Tick` | src/components/ChatSimulation.tsx:33-41 | one interval firing appends the next character and advances the index, or, at the end of the text, clears the interval and changes nothing shown; its updater takes the character at the index of the moment it is queued (see Findings) |
| `ChatSimulation.TypingMessage.Cancel` | src/components/ChatSimulation.tsx:42-43 | the unmount cleanup stops the interval |
| `ChatSimulation.TypingMessage.RunToEnd` | src/components/ChatSimulation.tsx:31-43 | left alone, the interval shows the whole text and clears itself after |text| + 1 firings, one tick after the reveal time (with updaters read when queued; see Findings) |
| `ChatSimulation.DeferredReveal` | src/components/ChatSimulation.tsx:33-37 | the text shown under a React 18 concurrent root, where the first updater runs at once and every later one after `index++`: nothing before the first firing, the first character after it |
| `ChatSimulation.DeferredRevealPrefix` | src/components/ChatSimulation.tsx:33-37 | with the later updaters deferred, the first k firings of a longer text show its first character and then its characters 2 to k, skipping the second |
| `ChatSimulation.DeferredRevealGarbles` | src/components/ChatSimulation.tsx:33-37 | with the later updaters deferred, a text of two or more characters ends up shown as its first character, its characters from the third on and "undefined", never as itself; a one-character text is shown as it is |
| `ChatSimulation.DeferredRevealExample` | src/components/ChatSimulation.tsx:33-37 | with the later updaters deferred, "はい" is shown as "はundefined" |
| `ChatSimulation.Apply` | src/components/ChatSimulation.tsx:89-161 | the effect of each button on the transcript, the step and the item index; the current item stays one of the items and the item list never changes |
| `ChatSimulation.ApplyMovesForward` | src/components/ChatSimulation.tsx:108-160 | a press either keeps the step (only "not yet" and "found it" on an item that is not the last) or moves it to the next step of arrival → inquiry → findItem → checkout → done |
| `ChatSimulation.ApplyAppends` | src/components/ChatSimulation.tsx:89-161 | every button that is on screen adds at least one line to the transcript |
| `ChatSimulation.RunMovesForward` | src/components/ChatSimulation.tsx:89-161 | over any run of presses the earlier transcript is a prefix of the later one and the step never moves back |
| `ChatSimulation.RunConcat` | src/components/ChatSimulation.tsx:191-293 | a run of presses split at any point is the first part followed by the second |
| `ChatSimulation.TranscriptPrefixOverRun` | src/components/ChatSimulation.tsx:81-161 | messages are only ever appended: the transcript at any point of a run is a prefix of the transcript at any later point |
| `ChatSimulation.CheckoutExactlyAfterLastItem` | src/components/ChatSimulation.tsx:129-145 | "found it" moves to checkout exactly when the current item is the last one, otherwise asks about the next item, and always first says the current item was picked up |
| `ChatSimulation.NotFoundIsSelfLoop` | src/components/ChatSimulation.tsx:146-151 | "not yet" keeps the step and the item and asks about the same item again |
| `ChatSimulation.WholeVisit` | src/components/ChatSimulation.tsx:64-161 | a complete visit (arrive, decline the inquiry, one "not yet", both items found, checkout) ends at done with both items asked about |
| `ChatSimulation.ChatSession.constructor` | src/components/ChatSimulation.tsx:65-70 | the chat opens on the greeting line, at arrival, on the first item |
| `ChatSimulation.ChatSession.AddSequentialMessages` | src/components/ChatSimulation.tsx:81-86 | appends the messages in order and waits `computeDelay` after each |
| `ChatSimulation.ChatSession.HandleArrival` | src/components/ChatSimulation.tsx:89-109 | grandpa's "arrived", a one-second pause, the eleven list-and-map lines, then the inquiry step; agrees with the reference `Apply` |
| `ChatSimulation.ChatSession.HandleInquiryAnswer` | src/components/ChatSimulation.tsx:112-126 | grandpa's answer, two lines of deals after yes or one line after no, then the findItem step and the question about the current item; agrees with `Apply` |
| `ChatSimulation.ChatSession.HandleFindItemAnswer` | src/components/ChatSimulation.tsx:129-152 | "found it" praises the item and asks about the next one, or at the last item moves to checkout with three closing lines; "not yet" urges and asks again; agrees with `Apply` |
| `ChatSimulation.ChatSession.HandleCheckout` | src/components/ChatSimulation.tsx:155-161 | the two closing lines, then done; agrees with `Apply` |
| `MapDisplay.Markers` | src/components/MapDisplay.tsx:12-20 | one marker per item, in order, each keeping the item's id, name and scanned flag and placed by its id |
| `MapDisplay.MarkerColor` | src/components/MapDisplay.tsx:32 | green exactly for a scanned item, red otherwise |
| `MapDisplay.FixedLayout` | src/components/MapDisplay.tsx:13-18 | item 1 at (150, 200), item 2 at (300, 350), every other id at (100, 100), and no other placement |
| `MapDisplay.PositionOnlyById` | src/components/MapDisplay.tsx:12-20 | items with the same id are placed alike, whatever their other fields |
| `MapDisplay.ChatMarkersStayRed` | src/components/MapDisplay.tsx:25-37 | however the chat goes, its items are never scanned, so every marker drawn for them is red |
| `MemoryGame.ThemeSymbols` | src/components/Game03.tsx:23-34 | every theme has eight symbols |
| `MemoryGame.GetGameConfig` | src/components/Game03.tsx:37-70 | easy: 4 pairs, 3 s peek, 2 hints; medium: 6, 2 s, 1; hard: 8, 1 s, 1; the symbols are the first `pairs` of the theme's |
| `MemoryGame.ThemeSymbolsDistinct` | src/components/Game03.tsx:23-34 | no two symbols of a theme are equal, so only the two cards of a pair match |
| `MemoryGame.PairList` | src/components/Game03.tsx:78-82 | the unshuffled deck has two cards per symbol |
| `MemoryGame.PairListContents` | src/components/Game03.tsx:78-82 | the unshuffled deck holds each symbol exactly twice and the drawn ids in order |
| `MemoryGame.SwapAt` | src/components/Game03.tsx:87 | a swap keeps the length |
| `MemoryGame.SwapPermutes` | src/components/Game03.tsx:87 | a swap is a permutation |
| `MemoryGame.ShuffleTop` | src/components/Game03.tsx:85-88 | the Fisher–Yates pass keeps the length |
| `MemoryGame.ShufflePermutes` | src/components/Game03.tsx:85-88 | the shuffle is a permutation of the deck |
| `MemoryGame.Shuffle` | src/components/Game03.tsx:85-88 | the in-place loop leaves the array equal to the reference shuffle and a permutation of what it held |
| `MemoryGame.BuildDeck` | src/components/Game03.tsx:78-82 | the push loop builds the reference deck: each symbol twice, the ids in order |
| `MemoryGame.ShuffledDeck` | src/components/Game03.tsx:84-90 | the deck shuffled in an array is the reference shuffle and a permutation |
| `MemoryGame.NewDeck` | src/components/Game03.tsx:73-90 | a new deck holds two cards of each symbol and each drawn id once |
| `MemoryGame.FindCard` | src/components/Game03.tsx:131-132 | `cards.find` gives a card of the deck with the id asked for |
| `MemoryGame.MatchPoints` | src/components/Game03.tsx:147-151 | a match earns 20 plus 5 per streak step plus a speed bonus of 0 to 10, which is 0 from 100 seconds on |
| `MemoryGame.AllMatchedIffCovered` | src/components/Game03.tsx:157 | comparing the lengths of `matched` and the deck means exactly that every card is matched |
| `MemoryGame.PaddedValue` | src/components/Game03.tsx:232 | padding with leading zeros keeps a digit string's value |
| `MemoryGame.TwoDigits` | src/components/Game03.tsx:231-232 | seconds below 100 are shown as exactly two digits that read back as the number |
| `MemoryGame.FormatTimeReadsBack` | src/components/Game03.tsx:229-233 | the clock shows minutes, a colon and two digits of seconds, and reading them back gives `time / 60` and `time % 60` |
| `MemoryGame.GridFitsDeck` | src/components/Game03.tsx:236-243 | every level's grid has exactly one cell per card |
| `MemoryGame.PairedUpAppend` | src/components/Game03.tsx:135-137 | appending the two ids of a pair with equal symbols keeps the matched ids in pairs of equal symbols |
| `MemoryGame.ClickKeepsInv` | src/components/Game03.tsx:111-177 | every click keeps the board invariant: distinct ids, at most two turned cards, matched ids in consecutive pairs of cards with equal symbols, score nonnegative, streak at most the best streak, and the clock running exactly while a card is unmatched |
| `MemoryGame.ClickOutcome` | src/components/Game03.tsx:111-177 | a click on a turned or matched card, or with two turned or all cards shown, changes nothing; a first card only turns; a second card counts one move and matches exactly when its symbol equals the first card's, adding both to matched, growing the streak and scoring `MatchPoints`; a mismatch resets the streak, keeps both cards turned and schedules the flip-back; the best streak becomes the larger of the old best and the new streak |
| `MemoryGame.ClickFinishesWhenAllMatched` | src/components/Game03.tsx:156-163 | the clock stops, and the success timer starts, exactly when the click matches the last pair |
| `MemoryGame.FreshBoardInv` | src/components/Game03.tsx:90-99 | a freshly dealt round meets the board invariant |
| `MemoryGame.MemoryGame.constructor` | src/components/Game03.tsx:4-20 | the initial hook values: menu, easy, fruits, nothing dealt, clock stopped |
| `MemoryGame.MemoryGame.SetGameLevel` | src/components/Game03.tsx:295-307 | the level buttons set the level |
| `MemoryGame.MemoryGame.SetTheme` | src/components/Game03.tsx:271-283 | the theme buttons set the theme |
| `MemoryGame.MemoryGame.InitializeGame` | src/components/Game03.tsx:73-108 | deals a new shuffled deck of the level's pairs, resets moves, timer, streak, hints and score, starts the clock and the initial peek |
| `MemoryGame.MemoryGame.ResetRound` | src/components/Game03.tsx:91-103 | the resets of a new round, with the peek timer scheduled |
| `MemoryGame.MemoryGame.PeekTimeout` | src/components/Game03.tsx:104-107 | the peek ends: all cards hidden again |
| `MemoryGame.MemoryGame.TimerTick` | src/components/Game03.tsx:207-217 | one second more on the clock while it runs |
| `MemoryGame.MemoryGame.HandleCardClick` | src/components/Game03.tsx:111-177 | the board after a click is the reference `Click`, and the invariant still holds |
| `MemoryGame.MemoryGame.FlipBackTimeout` | src/components/Game03.tsx:172-174 | one second after a mismatch both cards are turned back |
| `MemoryGame.MemoryGame.SuccessTimeout` | src/components/Game03.tsx:160-162 | one second after the last match the success screen shows |
| `MemoryGame.MemoryGame.QuitToMenu` | src/components/Game03.tsx:410-413 | "back to settings" stops the clock and shows the menu |
| `MemoryGame.MemoryGame.SuccessToMenu` | src/components/Game03.tsx:474 | the success screen's menu button shows the menu |
| `MemoryGame.MemoryGame.ShowHintFunc` | src/components/Game03.tsx:180-198 | nothing once the level's hints are used up; otherwise one more hint, 30 points off but never below zero, and all cards shown, with one hint end pending (the cleanup of `hintTimeout` at lines 219-226 clears the one before); hints never exceed the allowance |
| `MemoryGame.MemoryGame.HintTimeout` | src/components/Game03.tsx:193-196 | 1.5 s after a hint the cards are hidden again and no hint end is pending |
| `MemoryGame.SwapCommutes` | src/components/Game03.tsx:87 | swapping cards swaps their symbols and ids alike |
| `MemoryGame.ShuffleCommutes` | src/components/Game03.tsx:85-88 | shuffling the deck shuffles its symbols and its ids the same way |
| `MemoryGame.SwapKeepsIdsDistinct` | src/components/Game03.tsx:87 | a swap never duplicates an id |
| `MemoryGame.ShuffleKeepsIdsDistinct` | src/components/Game03.tsx:85-88 | the shuffled deck's ids are still distinct, so `find` by id picks the clicked card |
| `Countdown.TickTime` | src/components/Game04.tsx:307-313 | a tick ends the game with zero left at one second or less, and otherwise takes exactly one second off (the same countdown as src/components/Game05.tsx) |
| `Countdown.CountdownLength` | src/components/Game04.tsx:303-317 | from `t` seconds the clock reaches zero after exactly `t` ticks, one second per tick until then |
| `Countdown.RoundedPercent` | src/components/Game04.tsx:334-337 | the rounded percentage is the integer within one half of `100 * part / whole`, rounding halves up as `Math.round` does |
| `Countdown.PercentBounds` | src/components/Game04.tsx:334-337 | a part of the whole rounds to at most 100, the whole to exactly 100 and nothing to 0 |
| `TypingGame.GetDifficultyConfig` | src/components/Game04.tsx:19-46 | easy, medium and hard give 60, 90 and 120 seconds with short, medium and long texts; any other value is treated as easy |
| `TypingGame.LongerTextsMoreTime` | src/components/Game04.tsx:19-46 | two settings share a text length exactly when they share a time limit, and longer texts always come with more time |
| `TypingGame.TextsFor` | src/components/Game04.tsx:49-175 | ten texts per length for kotowaza, season and health, three for any other category |
| `TypingGame.TextPool` | src/components/Game04.tsx:178-183 | the list a random text is drawn from is never empty, so the random index always exists |
| `TypingGame.HintAt` | src/components/Game04.tsx:210-215 | the highlighted character is the target's character at the input's length, and there is none once the input is as long as the target |
| `TypingGame.TextChange` | src/components/Game04.tsx:206-245 | completing the target adds its length to the correct and typed counts and ten points per character; another non-empty input adds one typed character, and one correct exactly when its last character matches the target there; an empty input changes no counter |
| `TypingGame.VirtualKey` | src/components/Game04.tsx:248-300 | back space drops the last character and nothing else; the space bar appends a space and moves the counters only when that completes the target |
| `TypingGame.KanaIsTextChange` | src/components/Game04.tsx:272-299 | a kana key does exactly what typing its character into the text box does |
| `TypingGame.SpaceDiffersFromTextChange` | src/components/Game04.tsx:253-271 | the space bar counts like the text box when it completes the target, and otherwise counts one typed character fewer |
| `TypingGame.BackspaceUndoesKey` | src/components/Game04.tsx:250-252 | back space removes the character any other key appended |
| `TypingGame.BackspaceLeavesHintStale` | src/components/Game04.tsx:250-252 | back space does not refresh the highlighted character: after typing and deleting "a" of "ab" it still asks for "b" |
| `TypingGame.TextChangeKeepsInv` | src/components/Game04.tsx:206-245 | a text box edit keeps correct ≤ typed and the score at most ten points per correct character |
| `TypingGame.CompletionKeepsInv` | src/components/Game04.tsx:218-227 | a completed text keeps the counters' invariant |
| `TypingGame.VirtualKeyKeepsInv` | src/components/Game04.tsx:248-300 | every on-screen key keeps the counters' invariant |
| `TypingGame.Accuracy` | src/components/Game04.tsx:334-337 | 100 before anything is typed, otherwise the rounded percentage of correct characters |
| `TypingGame.AccuracyIsPercentage` | src/components/Game04.tsx:334-337 | with no more correct than typed characters the accuracy is at most 100, and all-correct typing shows 100 |
| `TypingGame.TypingGame.CalculateAccuracy` | src/components/Game04.tsx:334-337 | the screen's accuracy is a percentage, 100 before any typing |
| `TypingGame.TypingGame.constructor` | src/components/Game04.tsx:4-15 | the menu, easy proverbs, 60 seconds, all counters zero, keyboard hidden |
| `TypingGame.TypingGame.SetDifficulty` | src/components/Game04.tsx:503-515 | the difficulty buttons set the difficulty |
| `TypingGame.TypingGame.SetCategory` | src/components/Game04.tsx:479-491 | the category buttons set the category |
| `TypingGame.TypingGame.InitializeGame` | src/components/Game04.tsx:186-196 | the clock is set from the difficulty, all counters are cleared and a text is drawn from the current list |
| `TypingGame.TypingGame.HandleTextChange` | src/components/Game04.tsx:206-245 | the state after an edit is `TextChange` of the state before, and a completion schedules the move to the next text with the values of that moment |
| `TypingGame.TypingGame.HandleVirtualKeyPress` | src/components/Game04.tsx:248-300 | the state after a key is `VirtualKey` of the state before, and a completion schedules the move to the next text |
| `TypingGame.TypingGame.NextTextTimeout` | src/components/Game04.tsx:199-203 | half a second after a completion the input is cleared, a new text is drawn from the captured list and the completed count is one more than the captured count |
| `TypingGame.TypingGame.TimerTick` | src/components/Game04.tsx:303-317 | one second of the countdown; the result screen shows when it reaches zero |
| `TypingGame.TypingGame.BackToMenu` | src/components/Game04.tsx:445-452 | the back button leaves the game or result screen for the menu |
| `TypingGame.TypingGame.ToggleKeyboard` | src/components/Game04.tsx:393 | the keyboard button shows or hides the on-screen keyboard |
| `ArithmeticQuiz.GetDifficultyConfig` | src/components/Game05.tsx:17-48 | easy: 60 s, range 10, no negatives; medium: 90 s, range 50, negatives; hard: 120 s, range 100, negatives; no level uses decimal places |
| `ArithmeticQuiz.OperationSymbolAsWritten` | src/components/Game05.tsx:51-60 | every fixed mode gives one of the four operators the generator knows (mixed mode, as written, is not among them) |
| `ArithmeticQuiz.OperationSymbol` | src/components/Game05.tsx:51-60 | the corrected choice: every mode gives one of the generator's four operators, mixed mode the k-th of them |
| `ArithmeticQuiz.MixedAsWrittenLeavesGenerator` | src/components/Game05.tsx:57 | mixed mode as written can draw the full-width plus and minus signs, which none of the generator's branches matches |
| `ArithmeticQuiz.MixedCoversAllOperators` | src/components/Game05.tsx:51-60 | with the corrected choice, mixed mode can draw every operator |
| `ArithmeticQuiz.GenerateRandomNumber` | src/components/Game05.tsx:63-77 | the number's magnitude lies between 1 and the maximum, and it is negative exactly when negatives are allowed and the coin says so |
| `ArithmeticQuiz.EveryNumberDrawable` | src/components/Game05.tsx:63-77 | every number of magnitude 1 to max (negative ones when allowed) is some draw's result |
| `ArithmeticQuiz.GenerateQuestion` | src/components/Game05.tsx:80-113 | the question keeps the operator it was generated for |
| `ArithmeticQuiz.QuestionIsSound` | src/components/Game05.tsx:80-113 | for each known operator the answer is that operator applied to the operands, the operands stay in their ranges, division is exact with a divisor from 1 to 10, and without negatives operands and answers are positive |
| `ArithmeticQuiz.UnknownOperatorUndefined` | src/components/Game05.tsx:80-113 | an operator no branch matches leaves both operands and the answer undefined |
| `ArithmeticQuiz.DecimalAnswerAccepted` | src/components/Game05.tsx:140-141 | typing a defined answer in decimal passes the `parseFloat` comparison |
| `ArithmeticQuiz.MixedAsWrittenUnanswerable` | src/components/Game05.tsx:51-60 | as written, a mixed question with a full-width sign rejects every answer |
| `ArithmeticQuiz.EveryQuestionAnswerable` | src/components/Game05.tsx:80-141 | with the corrected operator choice every question of every mode has an answer, and its decimal form is accepted |
| `ArithmeticQuiz.EditKeepsSignInFront` | src/components/Game05.tsx:176-207 | no pad edit puts a minus sign anywhere but in front |
| `ArithmeticQuiz.MinusTwiceRestores` | src/components/Game05.tsx:187-193 | pressing the sign key twice gives back the answer |
| `ArithmeticQuiz.DigitKeys` | src/components/Game05.tsx:240-300 | a digit string becomes one pad key per character, each the key of that digit |
| `ArithmeticQuiz.KeysFor` | src/components/Game05.tsx:240-330 | the keys for a number are all pad keys, and none is the submit key |
| `ArithmeticQuiz.TypeDigitsAppends` | src/components/Game05.tsx:196-205 | after a non-empty answer other than "0", typing digits appends them |
| `ArithmeticQuiz.TypeRenderingFromEmpty` | src/components/Game05.tsx:196-205 | from an empty answer, typing a digit string without a leading zero gives that string |
| `ArithmeticQuiz.PadEntersEveryInteger` | src/components/Game05.tsx:176-207 | every integer, negative ones included, can be entered on the pad: its keys from an empty answer give its decimal form |
| `ArithmeticQuiz.PointValue` | src/components/Game05.tsx:150-152 | a correct answer is worth 10 points on easy, 20 on medium and 30 on hard |
| `ArithmeticQuiz.CheckAnswerCounts` | src/components/Game05.tsx:136-168 | an empty answer changes nothing; otherwise the answer is counted once, counted correct and shown as correct exactly when `parseFloat` of it equals the answer, and the score stays the points times the correct answers |
| `ArithmeticQuiz.PadPress` | src/components/Game05.tsx:176-179 | while the feedback line shows, a key changes nothing |
| `ArithmeticQuiz.Accuracy` | src/components/Game05.tsx:338-341 | 0 before anything is answered, otherwise the rounded percentage of correct answers |
| `ArithmeticQuiz.AccuracyIsPercentage` | src/components/Game05.tsx:338-341 | the accuracy is at most 100, is 100 when every answer was correct and 0 when none was |
| `ArithmeticQuiz.ArithmeticQuizScreen.CalculateAccuracy` | src/components/Game05.tsx:338-341 | the screen's accuracy is a percentage, 0 before anything is answered |
| `ArithmeticQuiz.ArithmeticQuizScreen.constructor` | src/components/Game05.tsx:4-14 | the screen starts on the menu with easy addition, 60 s, nothing counted and the pad shown |
| `ArithmeticQuiz.ArithmeticQuizScreen.SetDifficulty` | src/components/Game05.tsx:418-435 | a level button sets the level and nothing else |
| `ArithmeticQuiz.ArithmeticQuizScreen.SetOperationType` | src/components/Game05.tsx:382-411 | a mode button sets the mode and nothing else |
| `ArithmeticQuiz.ArithmeticQuizScreen.InitializeGame` | src/components/Game05.tsx:116-126 | the clock is set to the level's time, the counters are zeroed, a fresh question is generated with an empty answer and the game screen is shown; the question uses the corrected operator choice `OperationSymbol` (see Findings) |
| `ArithmeticQuiz.ArithmeticQuizScreen.HandleNumberInput` | src/components/Game05.tsx:176-207 | the question, answer and counters move as `PadPress` says, and checking a non-empty answer queues the move to the next question with the settings of that moment |
| `ArithmeticQuiz.ArithmeticQuizScreen.NextQuestionTimeout` | src/components/Game05.tsx:129-133 | the oldest queued move generates a question from the settings it captured, with an empty answer and no feedback; the question uses the corrected operator choice `OperationSymbol` (see Findings) |
| `ArithmeticQuiz.ArithmeticQuizScreen.TimerTick` | src/components/Game05.tsx:210-224 | the clock counts down one second, and reaching zero shows the result |
| `ArithmeticQuiz.ArithmeticQuizScreen.BackToMenu` | src/components/Game05.tsx:351-361 | the header button returns to the menu from the game and from the result |
| `ArithmeticQuiz.ArithmeticQuizScreen.TogglePad` | src/components/Game05.tsx:233 | the pad's button shows or hides the pad |
| `MahjongQuiz.SuitOf` | src/components/Game02.tsx:16 | the suit is the code's last character, nothing for an empty code |
| `MahjongQuiz.NumberPart` | src/components/Game02.tsx:17 | the number part followed by the suit gives back the code |
| `MahjongQuiz.GetTileName` | src/components/Game02.tsx:5-24 | an honour is named from the honour list, and defined exactly when its number reads as 1 to 7; every other suit always gets a name |
| `MahjongQuiz.TileParts` | src/components/Game02.tsx:15-29 | a one-digit code splits back into its suit and a number that `parseInt` reads |
| `MahjongQuiz.TileImageLookup` | src/components/Game02.tsx:27-76 | a one-digit code's picture comes from its suit's table at its number, honours only up to 7, else the question mark |
| `MahjongQuiz.ImagesFollowUnicode` | src/components/Game02.tsx:27-76 | the pictures are the Mahjong Tiles code points of the Unicode Standard for each suit and number |
| `MahjongQuiz.TablesConsecutive` | src/components/Game02.tsx:31-73 | each numbered suit's pictures are consecutive code points; the winds too, and white, green, red are U+1F006, U+1F005, U+1F004 |
| `MahjongQuiz.TileNames` | src/components/Game02.tsx:5-24 | a well-formed code is named by its honour, or by its digit and its suit's name; honours past 7 have no name |
| `MahjongQuiz.ImagesDistinctInBlock` | src/components/Game02.tsx:27-76 | every picture is in the Mahjong Tiles block and no two tiles share one |
| `MahjongQuiz.ColorsBySuit` | src/components/Game02.tsx:79-106 | characters are blue, circles green and bamboos brown whatever the number, and an unknown suit is black |
| `MahjongQuiz.HonourColors` | src/components/Game02.tsx:79-106 | the winds share dark grey, white, green and red each have their own colour, and honours past 7 are black |
| `MahjongQuiz.ValidTileShown` | src/components/Game02.tsx:15-76 | a well-formed tile always gets a picture and a name |
| `MahjongQuiz.Code` | src/components/Game02.tsx:109-180 | the code string of a well-formed quiz tile is a well-formed tile |
| `MahjongQuiz.QuizDataWellFormed` | src/components/Game02.tsx:109-180 | the quiz has ten questions numbered 1 to 10 in order, each with a thirteen-tile hand, options from the hand and the right answer among them |
| `MahjongQuiz.DiscardQuiz.ScoreBounded` | src/components/Game02.tsx:183-202 | the score never exceeds the number of questions |
| `MahjongQuiz.DiscardQuiz.constructor` | src/components/Game02.tsx:183-187 | the quiz starts on the first question with nothing selected or answered and no score |
| `MahjongQuiz.DiscardQuiz.HandleOptionClick` | src/components/Game02.tsx:193-202 | an answered question ignores clicks; otherwise the option is recorded and scores exactly when it is the right one |
| `MahjongQuiz.DiscardQuiz.HandleNextQuestion` | src/components/Game02.tsx:205-214 | before the last question it moves on and clears the answer; after the last one it shows the results and keeps the rest |
| `MahjongQuiz.DiscardQuiz.HandleRestart` | src/components/Game02.tsx:217-223 | the results' button returns to the first question with nothing answered and no score |
| `Rewards.FindReward` | src/components/prize.tsx:102 | `find` gives a listed reward with the id, and nothing exactly when no reward has it |
| `Rewards.RedeemOutcome` | src/components/prize.tsx:101-128 | a redemption starts exactly when the reward is found, not yet redeemed and affordable; "already redeemed" exactly when it is found and redeemed; every other case, an unknown id included, is "not enough points" |
| `Rewards.MarkRedeemed` | src/components/prize.tsx:116-118 | the list keeps its length and marks exactly the rewards with the id, leaving the rest as they were |
| `Rewards.RedeemBalance` | src/components/prize.tsx:101-128 | a started redemption takes exactly the reward's points, stays at or above zero and marks that one reward only; any other outcome changes nothing |
| `Rewards.RedeemOnce` | src/components/prize.tsx:101-128 | once redeemed, the same reward is answered with "already redeemed" |
| `Rewards.MarkedIsFound` | src/components/prize.tsx:102-118 | after marking, `find` gives the same reward marked redeemed |
| `Rewards.CountUpStep` | src/components/prize.tsx:55-62 | a count-up tick rises by five, without passing the balance |
| `Rewards.CountUpReaches` | src/components/prize.tsx:55-62 | after n ticks the count-up shows five points more per tick, or the balance once it is reached |
| `Rewards.CalculateProgress` | src/components/prize.tsx:131-133 | progress is the rounded percentage, capped at 100 |
| `Rewards.ProgressOfAchievements` | src/components/prize.tsx:7-14 | progress within the target is the uncapped rounded percentage, and every unfinished achievement's bar stays below 100 |
| `Rewards.ToggleDetails` | src/components/prize.tsx:82-98 | a click opens the achievement unless it is the open one, which it closes |
| `Rewards.ToggleTwice` | src/components/prize.tsx:82-98 | clicking the same achievement twice closes it again, and clicking the open one twice reopens it |
| `Rewards.RewardsScreen.constructor` | src/components/prize.tsx:5-30 | the screen opens on the celebration, 650 points counting up to 750, the rewards tab and the rewards as listed |
| `Rewards.RewardsScreen.CountUpTick` | src/components/prize.tsx:55-62 | a 50 ms tick moves the shown points one step towards the balance |
| `Rewards.RewardsScreen.CloseCelebration` | src/components/prize.tsx:252 | the celebration's button closes it |
| `Rewards.RewardsScreen.ConfettiTimeout` | src/components/prize.tsx:65-78 | six seconds into the celebration the confetti stops |
| `Rewards.RewardsScreen.SelectTab` | src/components/prize.tsx:357-377 | a tab button selects that tab |
| `Rewards.RewardsScreen.ToggleAchievementDetails` | src/components/prize.tsx:82-98 | clicking an achievement toggles its details as `ToggleDetails` says |
| `Rewards.RewardsScreen.RedeemReward` | src/components/prize.tsx:101-128 | the click's outcome is `RedeemOutcome`; a started one shows the animation and captures the balance and rewards of the moment, any other leaves everything as it was |
| `Rewards.RewardsScreen.FinishRedemption` | src/components/prize.tsx:112-122 | three seconds later the captured balance loses the reward's points and the captured rewards mark it redeemed, which is the whole `Redeem` of it |
| `Rewards.FinishIsRedeem` | src/components/prize.tsx:101-128 | ending a started redemption marks the reward, takes its points without going below zero and keeps the ids distinct |
| `QuestRewards.Spend` | src/components/QuestRewardsAnimated.tsx:29-38 | the reward is taken exactly when the balance covers it, leaving the balance less its points, never below zero |
| `QuestRewards.SpendAllBalance` | src/components/QuestRewardsAnimated.tsx:29-44 | over any run of clicks the balance falls by exactly the points of the rewards taken and never below zero |
| `QuestRewards.TakenTwice` | src/components/QuestRewardsAnimated.tsx:29-38 | nothing records a redemption, so the same reward is taken twice when the balance covers it twice |
| `QuestRewards.QuestRewardsScreen.constructor` | src/components/QuestRewardsAnimated.tsx:5-10 | the screen opens on the celebration with 650 points counting up to 750 and no animation |
| `QuestRewards.QuestRewardsScreen.CountUpTick` | src/components/QuestRewardsAnimated.tsx:12-19 | a 50 ms tick moves the shown points one step towards the balance |
| `QuestRewards.QuestRewardsScreen.CloseCelebration` | src/components/QuestRewardsAnimated.tsx:60 | the celebration's button closes it |
| `QuestRewards.QuestRewardsScreen.ConfettiTimeout` | src/components/QuestRewardsAnimated.tsx:21-27 | six seconds into the celebration the confetti stops |
| `QuestRewards.QuestRewardsScreen.RedeemReward` | src/components/QuestRewardsAnimated.tsx:29-38 | an affordable reward shows the animation and captures the balance; an unaffordable one changes nothing |
| `QuestRewards.QuestRewardsScreen.FinishRedemption` | src/components/QuestRewardsAnimated.tsx:33-36 | three seconds later the balance is the captured one less the reward's points |
| `ContactForm.SetField` | src/components/King.tsx:129-131 | the changed input takes the new value and every other input keeps its own |
| `ContactForm.ValidIffNoErrors` | src/components/King.tsx:140-159 | the form is accepted exactly when no input has an error; a blank email is reported as missing; the phone and inquiry type never have errors |
| `ContactForm.EmailPatternUnanchored` | src/components/King.tsx:149 | the unanchored email pattern still matches when anything is put before or after a matching address |
| `ContactForm.SpacedAddressAccepted` | src/components/King.tsx:149 | the pattern lets an address with a space before the '@' through, and rejects one without a '.' after the '@' |
| `ContactForm.ClearError` | src/components/King.tsx:133-136 | typing in an input clears its error and leaves the other inputs' errors as they were |
| `ContactForm.NextJoke` | src/components/King.tsx:71-73 | the next joke is the following one of the five, wrapping from the last to the first |
| `ContactForm.JokesCycle` | src/components/King.tsx:47-73 | five presses of the joke button come back to the same joke |
| `ContactForm.FunnyResponse` | src/components/King.tsx:23-44 | the thank-you reply is one of the three replies listed for the inquiry's type |
| `ContactForm.MoodColour` | src/components/King.tsx:76-122 | the four moods get amber, red, blue and pink, and any other mood indigo |
| `ContactForm.MoodColoursDistinct` | src/components/King.tsx:76-122 | no two moods share a colour |
| `ContactForm.ContactPage.constructor` | src/components/King.tsx:9-20 | the page opens on the mood step with an empty form, a neutral mood, no errors and the first joke |
| `ContactForm.ContactPage.SelectMood` | src/components/King.tsx:180-215 | a mood button sets the mood |
| `ContactForm.ContactPage.GoToForm` | src/components/King.tsx:222 | the next button moves to the form |
| `ContactForm.ContactPage.GoBack` | src/components/King.tsx:239 | the back button returns to the mood step |
| `ContactForm.ContactPage.HandleChange` | src/components/King.tsx:129-137 | an input's change updates that field and clears that field's error |
| `ContactForm.ContactPage.ValidateForm` | src/components/King.tsx:140-159 | the recorded errors are exactly the inputs' errors, with their messages, and the result says whether the form is accepted |
| `ContactForm.ContactPage.HandleSubmit` | src/components/King.tsx:162-170 | a submit records the errors, and starts sending exactly when the form is accepted |
| `ContactForm.ContactPage.SubmitTimeout` | src/components/King.tsx:172-176 | 1.5 s after an accepted submit the sending ends and the thank-you step shows |
| `ContactForm.ContactPage.ShowNextJoke` | src/components/King.tsx:71-73 | the joke button moves to `NextJoke` of the current joke |
| `ContactForm.ContactPage.NewInquiry` | src/components/King.tsx:442-450 | the new-inquiry button empties the form and returns to the mood step |
| `Restock.DaysBetween` | src/components/Recommend.tsx:94-98 | the same date is zero days apart |
| `Restock.NextDayIsOneLater` | src/components/Recommend.tsx:94-98 | the next day within a month is one day later |
| `Restock.EpochIsDayZero` | src/components/Recommend.tsx:94-98 | the day count starts at 1970-01-01, where `Date` counts from |
| `Restock.YearEndIsOneDay` | src/components/Recommend.tsx:94-98 | in every year, New Year's Day is one day after New Year's Eve |
| `Restock.CommonFebruaryEnd` | src/components/Recommend.tsx:94-98 | in every common year, the first of March is one day after the 28th of February |
| `Restock.LeapFebruaryEnd` | src/components/Recommend.tsx:94-98 | in every leap year, February has a 29th one day after the 28th, and the first of March is one day after it |
| `Restock.PastMonthEndRollsOver` | src/components/Recommend.tsx:94-98 | a day past the month's end, such as 2025-02-31, is counted as the matching day of the next month (2025-03-03), as V8's `Date` reads it |
| `Restock.MarchToMarch` | src/components/Recommend.tsx:94-98 | a March 1st is 365 days after the one before, or 366 when the February between is a leap February |
| `Restock.Annotate` | src/components/Recommend.tsx:123-131 | one suggestion per purchase, in order, with the days since it was bought and its interval less those days |
| `Restock.FilterBy` | src/components/Recommend.tsx:133-139 | exactly the suggestions the filter keeps remain |
| `Restock.InsertPermutes` | src/components/Recommend.tsx:140 | inserting adds exactly the one suggestion |
| `Restock.InsertHead` | src/components/Recommend.tsx:140 | inserting puts either the new suggestion or the old first one in front |
| `Restock.ConsSorted` | src/components/Recommend.tsx:140 | a suggestion with no more days left than the head of a sorted list keeps it sorted in front |
| `Restock.InsertSorted` | src/components/Recommend.tsx:140 | inserting into a list sorted by days left keeps it sorted |
| `Restock.WithDays` | src/components/Recommend.tsx:140 | the suggestions with a given number of days left, in order: exactly those of the list with that many days |
| `Restock.InsertStable` | src/components/Recommend.tsx:140 | an inserted suggestion goes in front of every one with the same days left, which keep their order |
| `Restock.SortByDaysSorts` | src/components/Recommend.tsx:140 | the sort orders by days left, is a permutation, and keeps suggestions with equal days left in their input order, as the stable `Array.prototype.sort` does |
| `Restock.SuggestionsSpec` | src/components/Recommend.tsx:120-146 | the suggestions are exactly the annotated purchases the filter keeps, each as often as before, soonest to run out first, those with equal days left in history order, each with its interval less the days since |
| `Restock.FilterAllKeepsAll` | src/components/Recommend.tsx:133-139 | the "all" filter keeps every suggestion, in place |
| `Restock.TiedItemsKeepHistoryOrder` | src/components/Recommend.tsx:6-146 | on every day the detergent and the milk of the history have the same days left, no other purchase does, and the detergent, first in the history, is suggested before the milk |
| `Restock.RemoveId` | src/components/Recommend.tsx:116 | exactly the suggestions with other ids remain |
| `Restock.DetailMessage` | src/components/Recommend.tsx:333-335 | an item at or past its end says it may have run out; any other says how many days are left and when it was bought |
| `Restock.UrgencyStyle` | src/components/Recommend.tsx:276-310 | high is red, "urgent" and "running out soon"; medium is yellow, "soon" and "time to rebuy"; anything else is blue and "still fine" |
| `Restock.RestockPage.constructor` | src/components/Recommend.tsx:6-146 | the page mounts with the listed history, an empty shopping list, the "all" filter and the suggestions for it, ties in history order |
| `Restock.RestockPage.SetFilter` | src/components/Recommend.tsx:120-146 | a filter button (lines 233-251) sets the filter; a different filter recomputes the suggestions from the whole history, and the filter already chosen leaves them as they are |
| `Restock.RestockPage.AddToShoppingList` | src/components/Recommend.tsx:107-117 | an item whose id is already listed changes nothing; any other is appended and every suggestion with its id is removed, so listed ids stay distinct |
| `Restock.RestockPage.ToggleHelp` | src/components/Recommend.tsx:188-194 | the help button shows or hides the help |
| `Restock.FilterChangeBringsBack` | src/components/Recommend.tsx:107-146 | a change to a different filter brings back every kept item, including ones already added to the list |
| `Ranking.RankedPointsFall` | src/components/Rank.tsx:5-32 | in a ranked table every row has more points than every row below it |
| `Ranking.WeeklyRanked` | src/components/Rank.tsx:6-14 | the weekly table is ranked 1 to 7 with falling points and the player in the fifth row only |
| `Ranking.MonthlyRanked` | src/components/Rank.tsx:15-23 | the monthly table is ranked with falling points and the player in the third row only |
| `Ranking.AllTimeRanked` | src/components/Rank.tsx:24-32 | the all-time table is ranked with falling points and the player in the second row only |
| `Ranking.TablesRanked` | src/components/Rank.tsx:5-32 | every period's table has seven ranked rows and the player in exactly one |
| `Ranking.GetRankDisplay` | src/components/Rank.tsx:53-58 | ranks 1 to 3 get the gold, silver and bronze medals, every other rank its number |
| `Ranking.RankDisplayDistinct` | src/components/Rank.tsx:53-58 | different ranks never share a badge |
| `Ranking.ToggleDetail` | src/components/Rank.tsx:78-91 | a row click opens that row's detail unless it is the open one, which it closes |
| `Ranking.RankingPage.constructor` | src/components/Rank.tsx:36-40 | the page mounts on the weekly table, loading, with the points animation running and no detail or popup |
| `Ranking.RankingPage.LoadTimeout` | src/components/Rank.tsx:61-66 | a second after mounting the loading ends |
| `Ranking.RankingPage.AnimationTimeout` | src/components/Rank.tsx:69-75 | the points animation ends |
| `Ranking.RankingPage.ToggleRow` | src/components/Rank.tsx:78-91 | the detail toggles, and the popup comes up exactly when the player's own row is opened |
| `Ranking.RankingPage.CongratsTimeout` | src/components/Rank.tsx:84-88 | 2.5 s after it came up the popup closes |
| `Ranking.RankingPage.CloseCongrats` | src/components/Rank.tsx:228 | the popup's button closes it |
| `Ranking.RankingPage.ChangePeriod` | src/components/Rank.tsx:94-102 | a period tab hides the table and closes the detail at once, and queues the change |
| `Ranking.RankingPage.PeriodTimeout` | src/components/Rank.tsx:94-102 | 300 ms later the queued period is shown, and a different period restarts the animation |
| `Text.TrimStartEmpty` | src/components/King.tsx:143-155 | dropping the leading white space leaves nothing exactly when the string is all white space |
| `Text.TrimEmptyIffBlank` | src/components/King.tsx:143-155 | `!s.trim()` holds exactly when every character is white space, in both directions |
| `Text.TrimStartHead` | src/components/King.tsx:143-155 | what is left after dropping leading white space does not start with white space |
| `Text.TrimEndKeepsHead` | src/components/King.tsx:143-155 | dropping trailing white space from a string that starts with a non-space leaves it non-empty |
| `Text.DigitChar` | src/components/Game03.tsx:232 | a digit value becomes a decimal digit character |
| `Text.DigitValue` | src/components/Game02.tsx:29 | a digit character has a value below ten |
| `Text.NatToString` | src/components/Game03.tsx:232 | `toString` of a natural number is a non-empty run of digits with no leading zero |
| `Text.NatToStringRoundTrip` | src/components/Rank.tsx:53-58 | reading the digits of `toString` back gives the number, so different numbers render differently |
| `Text.PadStart` | src/components/Game03.tsx:232 | `padStart` gives at least the width, ends with the string and is the pad character before it |
| `Text.DropLast` | src/components/Game05.tsx:182 | `slice(0, -1)` keeps the empty string empty and otherwise drops exactly the last character |
| `Text.DigitPrefix` | src/components/Game02.tsx:29 | the leading digits are a prefix of digits followed by a non-digit or the end |
| `Text.ParseIntOfDecimal` | src/components/Game02.tsx:29 | `parseInt` reads back the decimal rendering of a natural number |
| `Text.DigitPrefixAll` | src/components/Game02.tsx:29 | a string of digits is its own leading digits |
| `Text.ParseFloat` | src/components/Game05.tsx:140 | a number read by `parseFloat` has at least one digit, whole or fractional |
| `Text.ParseFloatOfInt` | src/components/Game05.tsx:140-141 | `parseFloat` of an integer's decimal rendering compares equal to that integer |
| `Text.ParseFloatOfDigits` | src/components/Game05.tsx:140 | a run of digits with or without a minus reads as that whole part, that sign and no fraction |

## Left out

- Speech synthesis (`speakText`, `stopSpeaking`, the `isSpeaking` state of the restock page and the rewards screen), the sound stub of the memory game and `console.log`: output only, no effect on state. The restock page's welcome-message timer only speaks, so it is left out with them.
- Navigation (`window.location.href`, `navigate`) and every "back to the top page" button: they leave the screen.
- Rendering: CSS classes beyond the label and colour choices listed above, layout, confetti placement, reward images and descriptions, the ranking's detail panel text, the mahjong explanations, and the email provider remark below the email input of the contact page.
- React's scheduling of state updates: each handler is one atomic method, and a timer callback sees the state it captured (via the pending queues), not a later one.
- `ChatSimulation.ChatSession.HandleArrival`, `HandleInquiryAnswer`, `HandleFindItemAnswer` and `HandleCheckout`: each appends its whole script at once. The source's `async` handlers add one message per pause, and their buttons stay live meanwhile. So a press while a script runs is not modelled: a second press, a handler reading an item index that a running script has not yet advanced, or "スキャン完了" appearing before the closing lines are out.
- `ChatSimulation.TypingMessage.Tick`: its updater reads the character at the index of the moment it is queued, the intended behaviour; under a React 18 concurrent root the source's updaters after the first run after `index++`, which `ChatSimulation.DeferredReveal` models (see Findings).
- `ChatSimulation.TypingMessage.RunToEnd`: the whole text is shown at the end only with updaters read when queued (see Findings).
- `ChatSimulation.Revealed`: the shown text is a prefix of the message only with updaters read when queued (see Findings).
- `ChatSimulation.DelayCoversReveal`: the message is fully shown by the end of the pause only with updaters read when queued (see Findings).
- `ArithmeticQuiz.ArithmeticQuizScreen.InitializeGame`: the screen runs the corrected operator choice `OperationSymbol`, so mixed mode never shows the source's question without operands (see Findings).
- `ArithmeticQuiz.ArithmeticQuizScreen.NextQuestionTimeout`: the same corrected operator choice as `InitializeGame` (see Findings).
- `TypingGame.HintAt`: the model counts characters as Unicode scalar values, but JavaScript's `length` and indexing count UTF-16 code units. They differ for characters outside the Basic Multilingual Plane, such as emoji: with the target "あいう" and the input "😀", the source highlights "う" and the model "い". The game's texts are all within the plane.
- `TypingGame.TextChange`: the lengths and the character compared are counted in scalar values, not UTF-16 code units (as for `HintAt`).
- `TypingGame.LastCharMatches`: compares scalar values, not UTF-16 code units (as for `HintAt`).
- `TypingGame.VirtualKey`: back space drops the last scalar value, where `slice(0, -1)` drops the last UTF-16 code unit (as for `HintAt`).
- Time: `setTimeout`/`setInterval` are continuation methods; how long they wait is not modelled, only the order in which they fire.
- Randomness: every `Math.random` draw is a parameter (the shuffle's choices, the question's operands, the typing text, the thank-you reply).
- Floating point: `parseFloat` is read as a sign with whole and fraction digits and compared with an integer exactly; `Math.round` of a percentage is exact integer rounding half up.
- Dates: `new Date("YYYY-MM-DD")` is a day count in the proleptic Gregorian calendar, and "today" is a date given to the page; the time of day and time zones (which `formatDate` reads in local time) are not modelled.
- The decimal-places path of the quiz's number generator: no level enables it.
- The typing game's per-character counting loop, whose result is never used, and `renderColoredText`, which only colours characters.
- The achievements that are already completed have no progress numbers in the source; their progress bar is not modelled (`Rewards.ProgressOfAchievements` covers the unfinished ones).
- `Rewards`: the level, streak and ranking tab data are display-only constants.
- `MahjongQuiz`: the quiz tiles are held as `TileCode` values, and `MahjongQuiz.Code` gives the string the tile functions receive.
- Supabase-backed screens (`ShoppingList.tsx`, `AlbumPage.tsx`, `PurchaseHistory.tsx`), the camera, OCR and assistant screens that call external services, the serverless functions, and the routing files (`App.tsx`, `TopPage.tsx`, `Game.tsx`) are not part of this model.

## Findings

| source | as written | input that shows it | evidently intended | confidence | as-written member | corrected member |
|---|---|---|---|---|---|---|
| src/components/ChatSimulation.tsx:36-37 | the interval queues `setDisplayedText(prev => prev + message.text[index])` and then does `index++`; under a React 18 concurrent root the first firing's updater runs at once, but each later one runs at the next render and reads the index after the increment (a legacy root runs every updater at once and shows the text correctly) | any message of two or more characters under a React 18 concurrent root, such as "はい", which comes out as "はundefined" | each firing appends the character at the index it was called with | not executed | `ChatSimulation.DeferredRevealGarbles` | `ChatSimulation.TypingMessage.RunToEnd` |
| src/components/Game05.tsx:57 | in mixed mode the operator is drawn from a list whose plus and minus are the full-width signs "＋" and "−", which no branch of `generateQuestion` matches, so such a question has no operands and no answer and every answer is marked wrong | operation type "mixed" with the first or second draw (plus or minus) | mixed mode draws one of the four operators the generator knows | not executed | `ArithmeticQuiz.MixedAsWrittenUnanswerable` | `ArithmeticQuiz.EveryQuestionAnswerable` |
