# Design-pattern demos, modelled and verified in Dafny

`CSharpCourse.DesignPatterns` is a course catalogue of small, independent C#
demos of the classic design patterns and SOLID principles, each with unit
tests that pin its behaviour down. This project models the demos whose
behaviour can be stated exactly, one Dafny module per C# file, and proves
what their code and tests promise.

The code's shape is kept. Objects whose fields are updated in place are
Dafny classes with `modifies` clauses. Stacks, lists and dictionaries are
`seq` and `map` fields. Pure computations are functions on datatypes. Where
a class changes state, its methods are proved against a value-level
specification, for example `EditorState` for the undo/redo editor or `Run`
for the package chain, and the lemmas about that specification carry the
properties. The exceptions the modelled operations throw are returned as
values (module `Outcomes`). A C# string is a sequence of UTF-16 code units
while a Dafny string is a sequence of Unicode scalar values; where the
source measures a string or walks it `char` by `char`, the model works on
its encoding (`Text.Utf16`).

Modules, by the C# file they model:

- Undo/redo and mementos:
  - `TextEditorMemento` (the `VersionedTextEditor` assignment)
  - `VersionedTextEditorDecorator` (its decorator variant with `VersionedChanges<T>`)
  - `DocumentCaretaker`
  - `MementoTextEditor` (the memento demo's `TextEditor`)
  - `DinosaurGame`
- Mediators: `TicTacToe`, `ChatRoom`.
- States: `GameState` (`GameContext` and its levels), `Enemy`.
- Iterators and collections:
  - `AccountIterator`
  - `EvenNumbers`
  - `BidirectionalList`
  - `GlyphSharing` (flyweight)
  - `NeuralNetwork` and `Priceable` (composites)
- Builders and formats:
  - `FluentMarkdownBuilder` and `MarkdownBuilder`
  - `DataExportService` (CSV escaping as in section 2, rules 6 and 7, of RFC 4180)
  - `EmailValidator`
- Proxies and decorators: `Warehouse`, `BankAccount`, `UserRepository`, `MultimediaPlayer`.
- Visitor and strategy: `RuleVisitor` (the rule tree, `VerifyRule` and `BuildRequirementsMessage`), `PricingStrategy`.
- Observers: `StockPrice`, `WeatherStation`, `FormField`.
- Chains of responsibility: `PackageHandler`, `HttpMessageHandlers`.
- SOLID: `OpenClosedBad`, `OpenClosedGood`, `LiskovSubstitutionBad`, `LiskovSubstitutionGood`.

These modules are shared:

- `Outcomes`: exceptions as values, `Option` and `Result`.
- `Seqs`: counting, repetition and the other list operations the code uses.
- `Int32`: C#'s unchecked 32-bit `int`.
- `Text`: number-to-text conversion, lower-casing and white space.

## Model

| member | source | states |
|---|---|---|
| TextEditorMemento.ChangeToSameContentIsNoOp | CSharpCourse.DesignPatterns/Assignments/TextEditorMemento.cs:30-33 | changing to the text already shown leaves the text and both histories exactly as they were |
| TextEditorMemento.ChangeRecordsOneStep | CSharpCourse.DesignPatterns/Assignments/TextEditorMemento.cs:30-40 | a change to a different text shows it, adds one undo snapshot, empties redo, and undoing it gives back the old text with the new one on redo |
| TextEditorMemento.UndoMovesOneSnapshot | CSharpCourse.DesignPatterns/Assignments/TextEditorMemento.cs:53-62 | undo fails exactly when the undo history is empty; otherwise it shows the top snapshot, with one snapshot fewer on undo and one more on redo |
| TextEditorMemento.RedoMovesOneSnapshot | CSharpCourse.DesignPatterns/Assignments/TextEditorMemento.cs:42-51 | the mirror image of undo: fails exactly on an empty redo history, otherwise moves one snapshot back |
| TextEditorMemento.RedoUndoesUndo | CSharpCourse.DesignPatterns/Assignments/TextEditorMemento.cs:42-62 | whenever undo succeeds, redo right after it restores the whole state |
| TextEditorMemento.UndoUndoesRedo | CSharpCourse.DesignPatterns/Assignments/TextEditorMemento.cs:42-62 | whenever redo succeeds, undo right after it restores the whole state |
| TextEditorMemento.HistorySizeIsConserved | CSharpCourse.DesignPatterns/Assignments/TextEditorMemento.cs:24-26 | undo and redo keep UndoCount + RedoCount unchanged |
| TextEditorMemento.RedoTimesUndoesUndoTimes | CSharpCourse.DesignPatterns/Assignments/TextEditorMemento.cs:42-62 | n undos (n at most the undo history's size) all succeed, and n redos after them restore the original state |
| TextEditorMemento.ChangeAfterUndoDiscardsRedo | CSharpCourse.DesignPatterns/Assignments/TextEditorMemento.cs:35-39 | a new text after an undo empties redo, so the undone version cannot be redone, and the undo history is back to its earlier size |
| TextEditorMemento.VersionedTextEditor.constructor | CSharpCourse.DesignPatterns/Assignments/TextEditorMemento.cs:20-28 | a new editor shows "" with both histories empty |
| TextEditorMemento.VersionedTextEditor.ChangeContent | CSharpCourse.DesignPatterns/Assignments/TextEditorMemento.cs:30-40 | the editor's new state is the change applied to its old state |
| TextEditorMemento.VersionedTextEditor.Undo | CSharpCourse.DesignPatterns/Assignments/TextEditorMemento.cs:53-62 | throws InvalidOperationException("Cannot undo") with the state untouched on an empty history; otherwise completes with the undone state |
| TextEditorMemento.VersionedTextEditor.Redo | CSharpCourse.DesignPatterns/Assignments/TextEditorMemento.cs:42-51 | throws InvalidOperationException("Cannot redo") with the state untouched on an empty history; otherwise completes with the redone state |
| TextEditorMemento.EditingScenarioStart | CSharpCourse.DesignPatterns.Tests/AssignmentTests/TextEditorMementoTests.cs:10-48 | the test's first half: both early calls throw, and the texts and counts after each step are the asserted ones |
| TextEditorMemento.ReplaceSecondVersion | CSharpCourse.DesignPatterns.Tests/AssignmentTests/TextEditorMementoTests.cs:50-57 | undo then "Version 3" gives "Version 3" with counts 2 and 0 |
| TextEditorMemento.UndoTwiceRedoTwice | CSharpCourse.DesignPatterns.Tests/AssignmentTests/TextEditorMementoTests.cs:59-73 | two undos reach "" with counts 0 and 2, two redos return to "Version 3" with counts 2 and 0 |
| TextEditorMemento.EditingScenario | CSharpCourse.DesignPatterns.Tests/AssignmentTests/TextEditorMementoTests.cs:8-74 | the whole test: every asserted (content, UndoCount, RedoCount) triple, and both expected exceptions |
| VersionedTextEditorDecorator.UndoMovesOneMemento | CSharpCourse.DesignPatterns/Assignments/Extra/VersionedTextEditorDecorator.cs:44-54 | undo fails exactly on an empty undo stack; otherwise it hands back the top memento, with one memento fewer on undo and one more on redo |
| VersionedTextEditorDecorator.RedoMovesOneMemento | CSharpCourse.DesignPatterns/Assignments/Extra/VersionedTextEditorDecorator.cs:65-75 | redo fails exactly on an empty redo stack; otherwise it hands back the top redo memento and moves one memento across |
| VersionedTextEditorDecorator.RedoUndoesUndo | CSharpCourse.DesignPatterns/Assignments/Extra/VersionedTextEditorDecorator.cs:44-75 | after a successful undo, redo with the restored snapshot gives back the original stacks and the snapshot the undo took |
| VersionedTextEditorDecorator.UndoUndoesRedo | CSharpCourse.DesignPatterns/Assignments/Extra/VersionedTextEditorDecorator.cs:44-75 | after a successful redo, undo gives back the original stacks and the snapshot the redo took |
| VersionedTextEditorDecorator.TextEditor.constructor | CSharpCourse.DesignPatterns/Assignments/Extra/VersionedTextEditorDecorator.cs:26 | the plain editor starts with "" |
| VersionedTextEditorDecorator.TextEditor.ChangeContent | CSharpCourse.DesignPatterns/Assignments/Extra/VersionedTextEditorDecorator.cs:28-31 | the content is overwritten unconditionally |
| VersionedTextEditorDecorator.VersionedTextEditor.constructor | CSharpCourse.DesignPatterns/Assignments/Extra/VersionedTextEditorDecorator.cs:88-91 | wraps the given editor with both stacks empty |
| VersionedTextEditorDecorator.VersionedTextEditor.SaveCurrentState | CSharpCourse.DesignPatterns/Assignments/Extra/VersionedTextEditorDecorator.cs:56-60 | pushes the snapshot of the current content and clears redo |
| VersionedTextEditorDecorator.VersionedTextEditor.ChangeContent | CSharpCourse.DesignPatterns/Assignments/Extra/VersionedTextEditorDecorator.cs:95-99 | always records the old content, even when the new text is the same, then the wrapped editor shows the new text |
| VersionedTextEditorDecorator.VersionedTextEditor.UndoInternal | CSharpCourse.DesignPatterns/Assignments/Extra/VersionedTextEditorDecorator.cs:101-102 | the wrapped editor shows the memento's content |
| VersionedTextEditorDecorator.VersionedTextEditor.RedoInternal | CSharpCourse.DesignPatterns/Assignments/Extra/VersionedTextEditorDecorator.cs:104-105 | the wrapped editor shows the memento's content |
| VersionedTextEditorDecorator.VersionedTextEditor.Undo | CSharpCourse.DesignPatterns/Assignments/Extra/VersionedTextEditorDecorator.cs:44-54 | throws InvalidOperationException("No more states to undo.") before any change on an empty stack; otherwise the stacks and the content are those of the undo step |
| VersionedTextEditorDecorator.VersionedTextEditor.Redo | CSharpCourse.DesignPatterns/Assignments/Extra/VersionedTextEditorDecorator.cs:65-75 | throws InvalidOperationException("No more states to redo.") before any change on an empty stack; otherwise the stacks and the content are those of the redo step |
| VersionedTextEditorDecorator.AgreesWithStackEditor | CSharpCourse.DesignPatterns/Assignments/Extra/VersionedTextEditorDecorator.cs:44-99 | the decorator and the stack-based editor agree on undo, on redo and on every change to a different text; on a change to the same text only the decorator records a snapshot |
| VersionedTextEditorDecorator.EditingScenarioStart | CSharpCourse.DesignPatterns.Tests/AssignmentTests/Extra/VersionedTextEditorDecoratorTests.cs:10-48 | the test's first half: both early calls throw, and the asserted texts and counts hold after each step |
| VersionedTextEditorDecorator.ReplaceSecondVersion | CSharpCourse.DesignPatterns.Tests/AssignmentTests/Extra/VersionedTextEditorDecoratorTests.cs:50-57 | undo then "Version 3" gives "Version 3" with counts 2 and 0 |
| VersionedTextEditorDecorator.UndoTwiceRedoTwice | CSharpCourse.DesignPatterns.Tests/AssignmentTests/Extra/VersionedTextEditorDecoratorTests.cs:59-73 | two undos reach "" with counts 0 and 2; two redos return to "Version 3" with counts 2 and 0 |
| VersionedTextEditorDecorator.EditingScenario | CSharpCourse.DesignPatterns.Tests/AssignmentTests/Extra/VersionedTextEditorDecoratorTests.cs:8-74 | the whole test: every asserted (content, UndoCount, RedoCount) triple, and both expected exceptions |
| DocumentCaretaker.Document.constructor | CSharpCourse.DesignPatterns/Behavioral/Memento/DocumentCaretaker.cs:5-6 | a new document has empty content and author |
| DocumentCaretaker.Document.UpdateContent | CSharpCourse.DesignPatterns/Behavioral/Memento/DocumentCaretaker.cs:8-12 | sets both the content and the author |
| DocumentCaretaker.Document.RestoreFromMemento | CSharpCourse.DesignPatterns/Behavioral/Memento/DocumentCaretaker.cs:15-19 | afterwards the document's memento is the one restored: content and author both come back |
| DocumentCaretaker.RoundTrip | CSharpCourse.DesignPatterns/Behavioral/Memento/DocumentCaretaker.cs:14-19 | restoring the memento just created leaves content and author unchanged |
| DocumentCaretaker.DocumentCaretaker.constructor | CSharpCourse.DesignPatterns/Behavioral/Memento/DocumentCaretaker.cs:40 | the history starts empty |
| DocumentCaretaker.DocumentCaretaker.SaveVersion | CSharpCourse.DesignPatterns/Behavioral/Memento/DocumentCaretaker.cs:42-45 | pushes exactly the document's current memento, so the count grows by one |
| DocumentCaretaker.DocumentCaretaker.RestoreLastVersion | CSharpCourse.DesignPatterns/Behavioral/Memento/DocumentCaretaker.cs:47-54 | on an empty history nothing changes; otherwise the document takes the most recent memento and that memento leaves the history |
| DocumentCaretaker.SaveThenRestore | CSharpCourse.DesignPatterns/Behavioral/Memento/DocumentCaretaker.cs:42-54 | saving and then restoring leaves both the history and the document as they were |
| DocumentCaretaker.VersionScenario | CSharpCourse.DesignPatterns.Tests/BehavioralTests/MementoTests/DocumentCaretakerTests.cs:10-32 | the test: after two saves, an edit and a restore, the document is "Second version" by "Bob" with one version left |
| MementoTextEditor.TextEditor.constructor | CSharpCourse.DesignPatterns/Behavioral/Memento/TextEditor.cs:5 | the editor starts empty |
| MementoTextEditor.TextEditor.Type | CSharpCourse.DesignPatterns/Behavioral/Memento/TextEditor.cs:7 | appends the text to the content |
| MementoTextEditor.TextEditor.Restore | CSharpCourse.DesignPatterns/Behavioral/Memento/TextEditor.cs:11 | the content becomes exactly the memento's saved content |
| MementoTextEditor.TypeThenRestore | CSharpCourse.DesignPatterns/Behavioral/Memento/TextEditor.cs:7-11 | a memento taken before typing brings the earlier content back, whatever was typed |
| MementoTextEditor.HelloScenario | CSharpCourse.DesignPatterns.Tests/BehavioralTests/MementoTests/TextEditorTests.cs:10-17 | the test: "Hello ", save, "World!", restore gives "Hello " |
| DinosaurGame.DinosaurGame.constructor | CSharpCourse.DesignPatterns/Behavioral/Memento/DinosaurGame.cs:12-20 | a game for the seed starts with 3 lives at distance 0 |
| DinosaurGame.DinosaurGame.CreateNew | CSharpCourse.DesignPatterns/Behavioral/Memento/DinosaurGame.cs:23-26 | a new game seeded with the drawn value |
| DinosaurGame.DinosaurGame.TakeDamage | CSharpCourse.DesignPatterns/Behavioral/Memento/DinosaurGame.cs:28-36 | one life fewer, with no lower bound; the distance is unchanged |
| DinosaurGame.DinosaurGame.Run | CSharpCourse.DesignPatterns/Behavioral/Memento/DinosaurGame.cs:43 | the distance grows by the given amount; the lives are unchanged |
| DinosaurGame.DinosaurGame.Load | CSharpCourse.DesignPatterns/Behavioral/Memento/DinosaurGame.cs:45-49 | a new game whose save is exactly the loaded state (seed, lives and distance round-trip) |
| DinosaurGame.SaveLoadScenario | CSharpCourse.DesignPatterns.Tests/BehavioralTests/MementoTests/DinosaurGameTests.cs:10-33 | the test: the loaded game has 2 lives at distance 2000 |
| DinosaurGame.SaveIsIndependentOfLaterPlay | CSharpCourse.DesignPatterns/Behavioral/Memento/DinosaurGame.cs:45-49 | a save loads back the values of the moment it was taken, whatever the old game did after |
| TicTacToe.TicTacToe.constructor | CSharpCourse.DesignPatterns/Behavioral/Mediator/TicTacToe.cs:11-16 | all nine cells of a new board are EmptyCell |
| TicTacToe.TicTacToe.GetBoard | CSharpCourse.DesignPatterns/Behavioral/Mediator/TicTacToe.cs:18 | a fresh 3x3 array with the same cells, so changing it cannot touch the game's board |
| TicTacToe.TicTacToe.MakeMove | CSharpCourse.DesignPatterns/Behavioral/Mediator/TicTacToe.cs:20-27 | accepted exactly when the cell is on the board and empty; then only that cell changes, to the player; a refused move changes nothing; an occupied cell is never overwritten |
| TicTacToe.TicTacToe.CheckWin | CSharpCourse.DesignPatterns/Behavioral/Mediator/TicTacToe.cs:29-48 | true exactly when some row, some column or one of the two diagonals is all the player's |
| TicTacToe.TicTacToe.IsBoardFull | CSharpCourse.DesignPatterns/Behavioral/Mediator/TicTacToe.cs:50-57 | true exactly when no cell is EmptyCell |
| TicTacToe.MoveKeepsLines | CSharpCourse.DesignPatterns/Behavioral/Mediator/TicTacToe.cs:20-27 | a line a (non-empty) player has completed stays complete whatever move comes next |
| TicTacToe.Opening | CSharpCourse.DesignPatterns.Tests/BehavioralTests/MediatorTests/TicTacToeTests.cs:50-53 | the `InvalidMove` test's board moves: X's move to (0, 0) is accepted, O's move onto the same cell is refused, and X keeps that cell, the only one taken |
| TicTacToe.TopRowGame | CSharpCourse.DesignPatterns.Tests/BehavioralTests/MediatorTests/TicTacToeTests.cs:23-38 | the playthrough's later moves give X the top row and O the centre and bottom-right corner |
| TicTacToe.GameOutcome | CSharpCourse.DesignPatterns.Tests/BehavioralTests/MediatorTests/TicTacToeTests.cs:38-40 | in that position X has won, O has not, and the board is not full |
| TicTacToe.GameScenario | CSharpCourse.DesignPatterns.Tests/BehavioralTests/MediatorTests/TicTacToeTests.cs:8-55 | the `GamePlaythrough` and `InvalidMove` tests' board moves on one board: the retaken cell is refused and the top row wins for X |
| TicTacToe.DrawOpening | CSharpCourse.DesignPatterns.Tests/BehavioralTests/MediatorTests/TicTacToeTests.cs:65-69 | the `Draw` test's first five moves on a fresh board are all accepted and leave the four remaining cells empty |
| TicTacToe.DrawEnding | CSharpCourse.DesignPatterns.Tests/BehavioralTests/MediatorTests/TicTacToeTests.cs:70-73 | its last four moves are all accepted and fill the board as X O X / O X X / O X O |
| TicTacToe.DrawOutcome | CSharpCourse.DesignPatterns/Behavioral/Mediator/TicTacToe.cs:29-57 | on that board neither X nor O has a line and the board is full |
| TicTacToe.DrawScenario | CSharpCourse.DesignPatterns.Tests/BehavioralTests/MediatorTests/TicTacToeTests.cs:57-77 | the `Draw` test's board moves: all nine accepted, no winner, board full, from which the game server declares a draw |
| ChatRoom.User.constructor | CSharpCourse.DesignPatterns/Behavioral/Mediator/ChatRoom.cs:18-25 | a new user has the name, no room and an empty chat log |
| ChatRoom.User.ReceiveMessage | CSharpCourse.DesignPatterns/Behavioral/Mediator/ChatRoom.cs:36-41 | appends exactly one message (sender, text) to the chat log |
| ChatRoom.User.BroadcastMessage | CSharpCourse.DesignPatterns/Behavioral/Mediator/ChatRoom.cs:30-31 | every member of the user's room gets the message once per membership; without a room nothing is sent |
| ChatRoom.User.SendPrivateMessage | CSharpCourse.DesignPatterns/Behavioral/Mediator/ChatRoom.cs:33-34 | in a room, each member gets as many copies as PrivateCopies gives; without a room nothing is sent |
| ChatRoom.FindIndex | CSharpCourse.DesignPatterns/Behavioral/Mediator/ChatRoom.cs:69-74 | `List.Find`: the first member with the name, or -1 exactly when no member has it |
| ChatRoom.ChatRoom.constructor | CSharpCourse.DesignPatterns/Behavioral/Mediator/ChatRoom.cs:47 | a new room has no members |
| ChatRoom.ChatRoom.Broadcast | CSharpCourse.DesignPatterns/Behavioral/Mediator/ChatRoom.cs:57-64 | every member's log grows by the message, once per time the member is in the list, and nothing else is logged |
| ChatRoom.ChatRoom.SendMessage | CSharpCourse.DesignPatterns/Behavioral/Mediator/ChatRoom.cs:66-76 | the first member named as recipient and the first member named as sender each get one copy (two copies when they are the same member); no one else gets any |
| ChatRoom.ChatRoom.Join | CSharpCourse.DesignPatterns/Behavioral/Mediator/ChatRoom.cs:49-55 | the user's room is this room, the user is appended, and every member (the newcomer too) gets "<name> joined the chatroom" from "room" |
| ChatRoom.MessageToSelfLoggedTwice | CSharpCourse.DesignPatterns/Behavioral/Mediator/ChatRoom.cs:66-76 | a private message to oneself reaches the sender twice |
| ChatRoom.UnknownRecipientOnlyEchoes | CSharpCourse.DesignPatterns/Behavioral/Mediator/ChatRoom.cs:69-75 | a private message to an unknown name reaches the sender only |
| ChatRoom.JoinAliceAndBob | CSharpCourse.DesignPatterns.Tests/BehavioralTests/MediatorTests/ChatRoomTests.cs:10-25 | after both join, Alice's log holds 2 messages and Bob's 1 |
| ChatRoom.PrivateMessages | CSharpCourse.DesignPatterns.Tests/BehavioralTests/MediatorTests/ChatRoomTests.cs:30-34 | the two private messages add two entries to each log |
| ChatRoom.TalkBetweenAliceAndBob | CSharpCourse.DesignPatterns.Tests/BehavioralTests/MediatorTests/ChatRoomTests.cs:30-39 | two more entries each after the private messages, one more each after Alice's broadcast |
| ChatRoom.CharlieJoins | CSharpCourse.DesignPatterns.Tests/BehavioralTests/MediatorTests/ChatRoomTests.cs:42-52 | Charlie's join adds one entry to each of the three logs, and Charlie's broadcast one more to each |
| ChatRoom.ChatScenario | CSharpCourse.DesignPatterns.Tests/BehavioralTests/MediatorTests/ChatRoomTests.cs:10-52 | the whole test: the log sizes are (2,1), (4,3), (5,4), (6,5,1) and (7,6,2) at the asserted points |
| ChatRoom.Deliver | CSharpCourse.DesignPatterns/Behavioral/Mediator/ChatRoom.cs:60-63 | one more delivery extends a member's log by one more copy of the message |
| GameState.GameContext.constructor | CSharpCourse.DesignPatterns/Behavioral/State/GameState.cs:22-24 | a new context is in the level-1 state with score 0 and has written nothing |
| GameState.GameContext.SetState | CSharpCourse.DesignPatterns/Behavioral/State/GameState.cs:28-31 | replaces the state and keeps the score |
| GameState.GameContext.Update | CSharpCourse.DesignPatterns/Behavioral/State/GameState.cs:33-85 | the new state is the current state's transition for the current score; the score is kept; on advancing, "Advanced to level: " and the new level are written |
| GameState.GameContext.IncreaseScore | CSharpCourse.DesignPatterns/Behavioral/State/GameState.cs:38-42 | adds the points to the score, keeps the level and writes "Score increased to: " with the new score |
| GameState.GameContext.NotifyLevelIncrease | CSharpCourse.DesignPatterns/Behavioral/State/GameState.cs:44-47 | writes "Advanced to level: " with the current level, changing nothing else |
| GameState.UpdateAnnouncesAdvance | CSharpCourse.DesignPatterns/Behavioral/State/GameState.cs:55-85 | an update writes one line exactly when it moves up a level, and that line names the new level |
| GameState.ScenarioScoreLines | CSharpCourse.DesignPatterns/Behavioral/State/GameState.cs:41 | the score lines for 1000 and 4000 |
| GameState.ScenarioLevelLines | CSharpCourse.DesignPatterns/Behavioral/State/GameState.cs:46 | the level lines for levels 2 and 3 |
| GameState.Level1IsDynamicLevel1 | CSharpCourse.DesignPatterns/Behavioral/State/GameState.cs:50-85 | the level-1 state behaves exactly like a dynamic state at level 1: level 1, threshold 1000, and the same transition |
| GameState.ThresholdIncreases | CSharpCourse.DesignPatterns/Behavioral/State/GameState.cs:52-69 | Level² × 1000 grows strictly with the level (from level 0 up) |
| GameState.UpdateAdvancesAtMostOneLevel | CSharpCourse.DesignPatterns/Behavioral/State/GameState.cs:55-85 | an update moves up one level exactly when the score reaches the threshold, and otherwise leaves the state unchanged |
| GameState.UpdatesClimbAtMostN | CSharpCourse.DesignPatterns/Behavioral/State/GameState.cs:77-85 | with the score fixed, n updates climb between 0 and n levels |
| GameState.UpdatesStopBelowThreshold | CSharpCourse.DesignPatterns/Behavioral/State/GameState.cs:77-85 | below the threshold, any number of updates changes nothing |
| GameState.GameScenario | CSharpCourse.DesignPatterns.Tests/BehavioralTests/StateTests/GameStateTests.cs:10-25 | the test: (level, score) goes (1, 0), (2, 1000), (3, 4000), and the console shows the score line for 1000, level 2, the score line for 4000, level 3 |
| Enemy.Enemy.constructor | CSharpCourse.DesignPatterns/Behavioral/State/Enemy.cs:18-29 | a new enemy is idle with a running idle stopwatch at zero and a stopped alert stopwatch; the player is out of view with health 100 and no waypoint is reached |
| Enemy.Enemy.WithDefaultIntervals | CSharpCourse.DesignPatterns/Behavioral/State/Enemy.cs:22-23 | as the constructor, with both intervals at their default of five seconds |
| Enemy.Enemy.Update | CSharpCourse.DesignPatterns/Behavioral/State/Enemy.cs:33-88 | the new state and stopwatches are the frame transition of the old ones; the surroundings are kept |
| Enemy.Enemy.NotifySound | CSharpCourse.DesignPatterns/Behavioral/State/Enemy.cs:91-98 | the new state is the sound transition of the old one; the surroundings are kept |
| Enemy.Enemy.ScoutForPlayer | CSharpCourse.DesignPatterns/Behavioral/State/Enemy.cs:100-107 | the enemy engages exactly when the player is in view, and otherwise nothing changes |
| Enemy.Enemy.Elapse | CSharpCourse.DesignPatterns/Behavioral/State/Enemy.cs:19-20 | time passing advances the running stopwatches only |
| Enemy.TransitionsOutOfView | CSharpCourse.DesignPatterns/Behavioral/State/Enemy.cs:37-79 | with the player out of view: idle turns to patrol iff the idle stopwatch passed its interval; patrol turns to idle iff a waypoint is reached, restarting the idle stopwatch; alert turns to patrol iff the alert stopwatch passed its interval; combat turns to patrol iff the player is dead |
| Enemy.SeeingThePlayerEngages | CSharpCourse.DesignPatterns/Behavioral/State/Enemy.cs:84-107 | a player in view means the enemy is in combat after any frame |
| Enemy.CombatEndsOnlyWhenPlayerDead | CSharpCourse.DesignPatterns/Behavioral/State/Enemy.cs:68-79 | from combat a frame leaves combat iff the player is dead and out of view, and then only to patrol |
| Enemy.OnlySoundsAlert | CSharpCourse.DesignPatterns/Behavioral/State/Enemy.cs:33-88 | a frame ends in alert iff it started in alert, the alert interval has not passed and the player is out of view |
| Enemy.UpdateSuccessors | CSharpCourse.DesignPatterns/Behavioral/State/Enemy.cs:35-87 | the successor states of each state under a frame |
| Enemy.SoundAlertsOutsideCombat | CSharpCourse.DesignPatterns/Behavioral/State/Enemy.cs:91-98 | a sound leaves a fighting enemy unchanged and otherwise alerts it with a restarted alert stopwatch, the idle stopwatch untouched |
| Enemy.CombatPersistsWhilePlayerAlive | CSharpCourse.DesignPatterns/Behavioral/State/Enemy.cs:68-72 | while the player lives, any number of frames leaves a fighting enemy unchanged |
| Enemy.ElapseOnlyMovesRunningTimers | CSharpCourse.DesignPatterns/Behavioral/State/Enemy.cs:19-20 | time passing changes no state and no stopped stopwatch, and adds to a running one |
| Enemy.EnemyScenario | CSharpCourse.DesignPatterns.Tests/BehavioralTests/StateTests/EnemyTests.cs:10-42 | the test: idle, patrol, alert, patrol, combat |
| AccountIterator.AtDepthOneIsTheList | CSharpCourse.DesignPatterns/Behavioral/Iterator/AccountIterator.cs:58-74 | the accounts at depth 1 of a list of trees are the list itself (the base of the depth reference definition) |
| AccountIterator.FlattenIsAtDepth | CSharpCourse.DesignPatterns/Behavioral/Iterator/AccountIterator.cs:58-74 | for a target level above the current one, the recursive flattening yields exactly the accounts at the remaining depth, in left-to-right order |
| AccountIterator.FlattenAllIsAtDepthAll | CSharpCourse.DesignPatterns/Behavioral/Iterator/AccountIterator.cs:73 | the same for the concatenated flattening of a list of sub-accounts |
| AccountIterator.FlattenPastLevelIsEmpty | CSharpCourse.DesignPatterns/Behavioral/Iterator/AccountIterator.cs:58-74 | once the walk is at or past a target level other than 1, it yields nothing |
| AccountIterator.FlattenAllPastLevelIsEmpty | CSharpCourse.DesignPatterns/Behavioral/Iterator/AccountIterator.cs:73 | the same for a list of sub-accounts |
| AccountIterator.LevelContents | CSharpCourse.DesignPatterns/Behavioral/Iterator/AccountIterator.cs:58-74 | level 1 yields the root alone, level 2 its sub-accounts, a level below 1 nothing, and a level of 2 or more every account at that depth |
| AccountIterator.AccountLevelIterator.constructor | CSharpCourse.DesignPatterns/Behavioral/Iterator/AccountIterator.cs:33-56 | keeps the root and level, flattens the tree at the level, starts at index 0 with the first account (or none) as current |
| AccountIterator.AccountLevelIterator.MoveNext | CSharpCourse.DesignPatterns/Behavioral/Iterator/AccountIterator.cs:41-50 | moves iff accounts remain; then the current account is the next one and the index advances by one, otherwise nothing changes |
| AccountIterator.AccountLevelIterator.Reset | CSharpCourse.DesignPatterns/Behavioral/Iterator/AccountIterator.cs:52-56 | re-flattens the tree and sets the current account to the first one, leaving the index as it was |
| AccountIterator.AtLevel | CSharpCourse.DesignPatterns/Behavioral/Iterator/AccountIterator.cs:87-98 | the accounts yielded are exactly the flattening of the tree at the level |
| AccountIterator.TotalBalance | CSharpCourse.DesignPatterns.Tests/BehavioralTests/IteratorTests/AccountIteratorTests.cs:38-46 | the loop over a fresh iterator sums the balances of all the accounts it yields |
| AccountIterator.MasterLevelThree | CSharpCourse.DesignPatterns.Tests/BehavioralTests/IteratorTests/AccountIteratorTests.cs:10-36 | the test tree's level-3 accounts are those with balances 50, 90 and 1800 |
| AccountIterator.MasterLevelThreeSum | CSharpCourse.DesignPatterns.Tests/BehavioralTests/IteratorTests/AccountIteratorTests.cs:48 | their balances add up to 1940 |
| AccountIterator.LevelThreeTotal | CSharpCourse.DesignPatterns.Tests/BehavioralTests/IteratorTests/AccountIteratorTests.cs:36-48 | the test's iterator loop totals 1940 |
| AccountIterator.AtLevelThreeTotal | CSharpCourse.DesignPatterns.Tests/BehavioralTests/IteratorTests/AccountIteratorTests.cs:50-63 | the test's `AtLevel(3)` sum totals 1940 |
| EvenNumbers.RemainderBy2 | CSharpCourse.DesignPatterns/Behavioral/Iterator/EvenNumbersIterator.cs:11 | C#'s truncating `% 2`: the result lies in (-2, 2), has the sign of the dividend, and differs from it by a multiple of 2 |
| EvenNumbers.IsEvenIsDivisibility | CSharpCourse.DesignPatterns/Behavioral/Iterator/EvenNumbersIterator.cs:11 | the filter's truncated-remainder test holds iff the number is divisible by 2; a negative odd number has remainder -1 |
| EvenNumbers.OnlyEvenCount | CSharpCourse.DesignPatterns/Behavioral/Iterator/EvenNumbersIterator.cs:7-16 | each even value occurs in the output as often as in the input, each odd value never |
| EvenNumbers.OnlyEvenMembership | CSharpCourse.DesignPatterns/Behavioral/Iterator/EvenNumbersIterator.cs:7-16 | a value is yielded iff it is in the input and even |
| EvenNumbers.OnlyEvenAppend | CSharpCourse.DesignPatterns/Behavioral/Iterator/EvenNumbersIterator.cs:9-15 | filtering distributes over concatenation, so the input order is kept |
| EvenNumbers.OnlyEvenLength | CSharpCourse.DesignPatterns/Behavioral/Iterator/EvenNumbersIterator.cs:7-16 | the output is never longer than the input, is as long iff every element is even, and then equals the input |
| EvenNumbers.OnlyEvenYieldsEvens | CSharpCourse.DesignPatterns/Behavioral/Iterator/EvenNumbersIterator.cs:11-14 | every yielded element is even |
| EvenNumbers.OnlyEvenIdempotent | CSharpCourse.DesignPatterns/Behavioral/Iterator/EvenNumbersIterator.cs:7-16 | filtering twice is filtering once |
| EvenNumbers.GenericAgrees | CSharpCourse.DesignPatterns/Behavioral/Iterator/EvenNumbersIterator.cs:18-31 | on integers the generic filter with its `% two == zero` test yields the same as `OnlyEven` |
| EvenNumbers.DecimalIsEvenMeansEvenInteger | CSharpCourse.DesignPatterns/Behavioral/Iterator/EvenNumbersIterator.cs:21-26 | a decimal passes the generic filter iff it is a whole, even number |
| EvenNumbers.EvenSum | CSharpCourse.DesignPatterns.Tests/BehavioralTests/IteratorTests/EvenNumbersIteratorTests.cs:17-22 | over 32-bit elements, the enumeration loop's `int` total is the exact sum of the filtered elements, wrapped to 32 bits as C#'s unchecked `+=` does |
| EvenNumbers.EvenSumWrapsScenario | CSharpCourse.DesignPatterns.Tests/BehavioralTests/IteratorTests/EvenNumbersIteratorTests.cs:17-22 | two evens of 2^30 sum past `int.MaxValue`, so the loop ends at `int.MinValue` |
| EvenNumbers.TenEvens | CSharpCourse.DesignPatterns.Tests/BehavioralTests/IteratorTests/EvenNumbersIteratorTests.cs:11-17 | the evens of 1..10 are 2, 4, 6, 8, 10 |
| EvenNumbers.FirstFiveEvens | CSharpCourse.DesignPatterns.Tests/BehavioralTests/IteratorTests/EvenNumbersIteratorTests.cs:11 | the evens of 1..5 are 2 and 4 |
| EvenNumbers.LastFiveEvens | CSharpCourse.DesignPatterns.Tests/BehavioralTests/IteratorTests/EvenNumbersIteratorTests.cs:11 | the evens of 6..10 are 6, 8 and 10 |
| EvenNumbers.TenEvensSum | CSharpCourse.DesignPatterns.Tests/BehavioralTests/IteratorTests/EvenNumbersIteratorTests.cs:24 | they add up to 30 |
| EvenNumbers.SixEvensSum | CSharpCourse.DesignPatterns.Tests/BehavioralTests/IteratorTests/EvenNumbersIteratorTests.cs:50-66 | the generic filter on 1..6 sums to 12 |
| EvenNumbers.EvenSumScenario | CSharpCourse.DesignPatterns.Tests/BehavioralTests/IteratorTests/EvenNumbersIteratorTests.cs:9-66 | the tests' sums: 30 for 1..10 and 12 for 1..6 |
| EvenNumbers.DecimalEvenSum | CSharpCourse.DesignPatterns.Tests/BehavioralTests/IteratorTests/EvenNumbersIteratorTests.cs:52-66 | the decimal row of the generic test: 1..6 as decimals sum to 12 |
| BidirectionalList.BidirectionalList.constructor | CSharpCourse.DesignPatterns/Assignments/BidirectionalList.cs:14 | a new list is empty |
| BidirectionalList.BidirectionalList.Add | CSharpCourse.DesignPatterns/Assignments/BidirectionalList.cs:18-21 | appends the value at the end, bumps the list's version and changes nothing else |
| BidirectionalList.BidirectionalList.AddRange | CSharpCourse.DesignPatterns/Assignments/BidirectionalList.cs:23-29 | appends all the values of an enumeration the loop does not change, in order |
| BidirectionalList.BidirectionalList.AddRangeOfItself | CSharpCourse.DesignPatterns/Assignments/BidirectionalList.cs:23-29 | given the list itself, the enumeration appends the first value and then throws `InvalidOperationException` on the changed list; an empty list completes unchanged |
| BidirectionalList.SelfAddRangeScenario | CSharpCourse.DesignPatterns/Assignments/BidirectionalList.cs:23-29 | adding 1, 2, 3 to itself leaves 1, 2, 3, 1 and throws |
| BidirectionalList.BidirectionalList.Forward | CSharpCourse.DesignPatterns/Assignments/BidirectionalList.cs:31-34 | enumerating yields the contents in insertion order |
| BidirectionalList.BidirectionalList.Backward | CSharpCourse.DesignPatterns/Assignments/BidirectionalList.cs:38-47 | walking back from the last node yields the contents reversed |
| BidirectionalList.ReverseAfterAdd | CSharpCourse.DesignPatterns/Assignments/BidirectionalList.cs:18-47 | after an `Add`, the backward walk starts with the new value and continues with the old backward order |
| BidirectionalList.ListScenario | CSharpCourse.DesignPatterns.Tests/AssignmentTests/BidirectionalListTests.cs:10-44 | the test: count 0, then 3 after `AddRange([1, 2, 3])`; forward 1, 2, 3 and backward 3, 2, 1 |
| FluentMarkdownBuilder.FluentMarkdownBuilder.constructor | CSharpCourse.DesignPatterns/Assignments/FluentMarkdownBuilder.cs:7 | a new builder owns a fresh, empty StringBuilder with the given line terminator |
| FluentMarkdownBuilder.FluentMarkdownBuilder.AddText | CSharpCourse.DesignPatterns/Assignments/FluentMarkdownBuilder.cs:9-13 | appends the text as it is |
| FluentMarkdownBuilder.FluentMarkdownBuilder.AddHeader | CSharpCourse.DesignPatterns/Assignments/FluentMarkdownBuilder.cs:15-23 | appends what the header call writes and reports the same outcome (see HeaderShape) |
| FluentMarkdownBuilder.FluentMarkdownBuilder.AddBold | CSharpCourse.DesignPatterns/Assignments/FluentMarkdownBuilder.cs:25-32 | appends the text between `**` and `**` |
| FluentMarkdownBuilder.FluentMarkdownBuilder.AddItalic | CSharpCourse.DesignPatterns/Assignments/FluentMarkdownBuilder.cs:34-41 | appends the text between single `*` |
| FluentMarkdownBuilder.FluentMarkdownBuilder.AddLink | CSharpCourse.DesignPatterns/Assignments/FluentMarkdownBuilder.cs:43-52 | appends `[name](url)` |
| FluentMarkdownBuilder.FluentMarkdownBuilder.AddBuiltLink | CSharpCourse.DesignPatterns/Assignments/FluentMarkdownBuilder.cs:54-61 | runs the callback on a fresh inner builder and appends the link named by its text; a throw in the callback propagates and appends nothing |
| FluentMarkdownBuilder.FluentMarkdownBuilder.AppendTableLine | CSharpCourse.DesignPatterns/Assignments/FluentMarkdownBuilder.cs:78-94 | appends `|`, the cells joined by `|`, then `|` and the line terminator |
| FluentMarkdownBuilder.FluentMarkdownBuilder.AddTable | CSharpCourse.DesignPatterns/Assignments/FluentMarkdownBuilder.cs:63-98 | appends the header line, a separator with one `---` per header, and one line per row in order |
| FluentMarkdownBuilder.FluentMarkdownBuilder.AppendRows | CSharpCourse.DesignPatterns/Assignments/FluentMarkdownBuilder.cs:89-95 | appends one table line per row, in order |
| FluentMarkdownBuilder.FluentMarkdownBuilder.AddBuiltTable | CSharpCourse.DesignPatterns/Assignments/FluentMarkdownBuilder.cs:100-108 | appends the table head with no rows, then what the table callback's rows write; a throw stops there |
| FluentMarkdownBuilder.FluentMarkdownBuilder.NewLine | CSharpCourse.DesignPatterns/Assignments/FluentMarkdownBuilder.cs:110-114 | appends the line terminator |
| FluentMarkdownBuilder.FluentMarkdownBuilder.ApplyOp | CSharpCourse.DesignPatterns/Assignments/FluentMarkdownBuilder.cs:9-114 | running one callback call appends what that call writes and has its outcome |
| FluentMarkdownBuilder.FluentMarkdownBuilder.Apply | CSharpCourse.DesignPatterns/Assignments/FluentMarkdownBuilder.cs:54-61 | running a callback appends what its calls write, stopping at the first throw |
| FluentMarkdownBuilder.FluentMarkdownTableBuilder.constructor | CSharpCourse.DesignPatterns/Assignments/FluentMarkdownBuilder.cs:124-127 | shares the given StringBuilder |
| FluentMarkdownBuilder.FluentMarkdownTableBuilder.AddRow | CSharpCourse.DesignPatterns/Assignments/FluentMarkdownBuilder.cs:129-136 | appends `|`, the cells the row callback adds, then the line terminator; a throw leaves the `|` and the cells written so far |
| FluentMarkdownBuilder.FluentMarkdownTableBuilder.Apply | CSharpCourse.DesignPatterns/Assignments/FluentMarkdownBuilder.cs:100-108 | running a table callback appends its rows in order, stopping at the first throw |
| FluentMarkdownBuilder.FluentMarkdownRowBuilder.constructor | CSharpCourse.DesignPatterns/Assignments/FluentMarkdownBuilder.cs:143-146 | shares the given StringBuilder |
| FluentMarkdownBuilder.FluentMarkdownRowBuilder.AddCell | CSharpCourse.DesignPatterns/Assignments/FluentMarkdownBuilder.cs:148-155 | appends the text of a fresh inner builder after the cell callback, then `|`; a throw appends nothing |
| FluentMarkdownBuilder.FluentMarkdownRowBuilder.Apply | CSharpCourse.DesignPatterns/Assignments/FluentMarkdownBuilder.cs:129-136 | running a row callback appends its cells in order, stopping at the first throw |
| FluentMarkdownBuilder.HeaderShape | CSharpCourse.DesignPatterns/Assignments/FluentMarkdownBuilder.cs:15-23 | a negative level throws and writes nothing; otherwise the header is exactly `level` hashes, a space and the text |
| FluentMarkdownBuilder.BuiltLinkIsLinkOfInnerText | CSharpCourse.DesignPatterns/Assignments/FluentMarkdownBuilder.cs:54-61 | a built link throws iff its callback does, and otherwise is the plain link named by the callback's text |
| FluentMarkdownBuilder.RunOpsAppend | CSharpCourse.DesignPatterns/Assignments/FluentMarkdownBuilder.cs:9-114 | the calls of two callbacks run one after the other write one text after the other; a throw stops everything after it |
| FluentMarkdownBuilder.TextCells | CSharpCourse.DesignPatterns/Assignments/FluentMarkdownBuilder.cs:148-155 | one cell call per string |
| FluentMarkdownBuilder.TextRows | CSharpCourse.DesignPatterns/Assignments/FluentMarkdownBuilder.cs:129-136 | one row call per row |
| FluentMarkdownBuilder.TextCellsAreJoined | CSharpCourse.DesignPatterns/Assignments/FluentMarkdownBuilder.cs:148-155 | cells that only add text write the strings joined by `|` with a final `|` |
| FluentMarkdownBuilder.TextRowIsTableLine | CSharpCourse.DesignPatterns/Assignments/FluentMarkdownBuilder.cs:91-136 | a built row of plain text cells writes the same line as a plain table row |
| FluentMarkdownBuilder.EmptyRowsDiffer | CSharpCourse.DesignPatterns/Assignments/FluentMarkdownBuilder.cs:91-136 | a built row with no cells writes `|` and a line break, a plain empty row writes `||` and a line break |
| FluentMarkdownBuilder.RowLinesStep | CSharpCourse.DesignPatterns/Assignments/FluentMarkdownBuilder.cs:89-95 | the rows' lines grow by one line per row |
| FluentMarkdownBuilder.RowLinesPrepend | CSharpCourse.DesignPatterns/Assignments/FluentMarkdownBuilder.cs:89-95 | the lines of a row followed by more rows are that row's line followed by theirs |
| FluentMarkdownBuilder.TextRowsAreRowLines | CSharpCourse.DesignPatterns/Assignments/FluentMarkdownBuilder.cs:89-136 | built rows of plain text cells write exactly the plain rows' lines |
| FluentMarkdownBuilder.TextTableAgreesWithPlainTable | CSharpCourse.DesignPatterns/Assignments/FluentMarkdownBuilder.cs:63-108 | a built table of plain text rows writes exactly what the plain table writes |
| FluentMarkdownBuilder.RowWidthIsUnchecked | CSharpCourse.DesignPatterns/Assignments/FluentMarkdownBuilder.cs:63-98 | a row of any width is written as it is, without reference to the headers |
| FluentMarkdownBuilder.PlainTableText | CSharpCourse.DesignPatterns.Tests/AssignmentTests/FluentMarkdownBuilderTests.cs:10-26 | the `AddTable` test's table text |
| FluentMarkdownBuilder.PlainTableScenario | CSharpCourse.DesignPatterns.Tests/AssignmentTests/FluentMarkdownBuilderTests.cs:8-28 | the `AddTable` test: the builder's text is the expected four lines |
| FluentMarkdownBuilder.NestedRowText | CSharpCourse.DesignPatterns.Tests/AssignmentTests/FluentMarkdownBuilderTests.cs:39-52 | the nested test's row: a bold-named link cell and an italic cell |
| FluentMarkdownBuilder.NestedScenario | CSharpCourse.DesignPatterns.Tests/AssignmentTests/FluentMarkdownBuilderTests.cs:32-63 | the `NestedMarkdown` test: it completes with the expected three lines |
| MarkdownBuilder.MarkdownBuilder.constructor | CSharpCourse.DesignPatterns/Creational/Builder/MarkdownBuilder.cs:7 | a new builder is empty and has made no calls |
| MarkdownBuilder.MarkdownBuilder.Append | CSharpCourse.DesignPatterns/Creational/Builder/MarkdownBuilder.cs:7 | appends the text and records the completed call |
| MarkdownBuilder.MarkdownBuilder.AddText | CSharpCourse.DesignPatterns/Creational/Builder/MarkdownBuilder.cs:9-10 | appends the text as it is |
| MarkdownBuilder.MarkdownBuilder.AddHeader | CSharpCourse.DesignPatterns/Creational/Builder/MarkdownBuilder.cs:12-16 | a negative level throws and changes nothing; otherwise appends `level` hashes, a space, the text and a line terminator |
| MarkdownBuilder.MarkdownBuilder.AddBold | CSharpCourse.DesignPatterns/Creational/Builder/MarkdownBuilder.cs:18-19 | appends the text between `**` and `**` |
| MarkdownBuilder.MarkdownBuilder.AddItalic | CSharpCourse.DesignPatterns/Creational/Builder/MarkdownBuilder.cs:21-22 | appends the text between single `*` |
| MarkdownBuilder.MarkdownBuilder.AddLink | CSharpCourse.DesignPatterns/Creational/Builder/MarkdownBuilder.cs:24-25 | appends `[name](url)` |
| MarkdownBuilder.MarkdownBuilder.NewLine | CSharpCourse.DesignPatterns/Creational/Builder/MarkdownBuilder.cs:27-28 | appends the line terminator |
| MarkdownBuilder.HeaderShape | CSharpCourse.DesignPatterns/Creational/Builder/MarkdownBuilder.cs:12-16 | a negative level is rejected with the `count` argument error; otherwise the header is exactly `level` hashes, a space, the text and the line terminator |
| MarkdownBuilder.DocumentAppend | CSharpCourse.DesignPatterns/Creational/Builder/MarkdownBuilder.cs:5-32 | the text of two runs of calls is the first run's text followed by the second's, or the first exception |
| MarkdownBuilder.DocumentFailsOnNegativeHeader | CSharpCourse.DesignPatterns/Creational/Builder/MarkdownBuilder.cs:12-16 | a run of calls throws iff one of them is a header with a negative level |
| MarkdownBuilder.AgreesWithFluentBuilder | CSharpCourse.DesignPatterns/Creational/Builder/MarkdownBuilder.cs:9-28 | each call writes what the same call on the fluent builder writes, and throws iff it does, except that a header here also ends its line |
| MarkdownBuilder.WriteHeader | CSharpCourse.DesignPatterns.Tests/CreationalTests/BuilderTests/MarkdownBuilderTests.cs:44 | the test's header call writes `### This is my header` and a line break |
| MarkdownBuilder.WriteSecondLine | CSharpCourse.DesignPatterns.Tests/CreationalTests/BuilderTests/MarkdownBuilderTests.cs:45-48 | bold, a space, italic and a line break are appended in that order |
| MarkdownBuilder.RegularScenario | CSharpCourse.DesignPatterns.Tests/CreationalTests/BuilderTests/MarkdownBuilderTests.cs:8-54 | the `RegularBuilder` test: the builder's text is the expected three lines |
| DataExportService.DoubleQuotes | CSharpCourse.DesignPatterns/Structural/Bridge/DataExportService.cs:84 | a field without `"` is left unchanged by the doubling |
| DataExportService.DoubleQuotesShape | CSharpCourse.DesignPatterns/Structural/Bridge/DataExportService.cs:84 | doubling adds one character per `"`, leaves every quote paired, and keeps every other character |
| DataExportService.UndoubleAfterDouble | CSharpCourse.DesignPatterns/Structural/Bridge/DataExportService.cs:84 | un-doubling the quotes recovers the original text |
| DataExportService.EscapeShape | CSharpCourse.DesignPatterns/Structural/Bridge/DataExportService.cs:80-87 | a field with `,`, `"` or a line feed is wrapped in quotes with its inner quotes doubled (RFC 4180, section 2, rules 6 and 7); any other field, one holding only a carriage return included, is returned unchanged |
| DataExportService.UnescapeAfterEscape | CSharpCourse.DesignPatterns/Structural/Bridge/DataExportService.cs:80-87 | escaping is invertible: stripping the outer quotes and un-doubling recovers the field |
| DataExportService.Keys | CSharpCourse.DesignPatterns/Structural/Bridge/DataExportService.cs:65 | the row's keys, in order |
| DataExportService.Fields | CSharpCourse.DesignPatterns/Structural/Bridge/DataExportService.cs:72 | the row's values, in order, each escaped, a null one as an empty field |
| DataExportService.RowLines | CSharpCourse.DesignPatterns/Structural/Bridge/DataExportService.cs:70-74 | one line per row: its fields joined by `,` |
| DataExportService.CsvLinesShape | CSharpCourse.DesignPatterns/Structural/Bridge/DataExportService.cs:63-74 | no data gives no lines, not even a header; otherwise a header of the first row's keys joined by `,`, unescaped, then one line per row |
| DataExportService.NullIsEmptyField | CSharpCourse.DesignPatterns/Structural/Bridge/DataExportService.cs:72 | a null value is written as an empty field |
| DataExportService.Format | CSharpCourse.DesignPatterns/Structural/Bridge/DataExportService.cs:57-78 | the output is the header and row lines, each followed by the line terminator |
| DataExportService.FormatStep | CSharpCourse.DesignPatterns/Structural/Bridge/DataExportService.cs:70-74 | each row's line is written after everything written before it |
| DataExportService.TestHeader | CSharpCourse.DesignPatterns.Tests/StructuralTests/BridgeTests/DataExportServiceTests.cs:24-29 | the test row's header line is `id,name,value` |
| DataExportService.PlainValue | CSharpCourse.DesignPatterns/Structural/Bridge/DataExportService.cs:86 | a value needing no quotes is written as it is |
| DataExportService.TestFieldsArePlain | CSharpCourse.DesignPatterns.Tests/StructuralTests/BridgeTests/DataExportServiceTests.cs:26-28 | the test row's values are written unquoted |
| DataExportService.TestValues | CSharpCourse.DesignPatterns.Tests/StructuralTests/BridgeTests/DataExportServiceTests.cs:26-28 | the test row's line is `1,Test Item,42.5` |
| DataExportService.TestRowLines | CSharpCourse.DesignPatterns.Tests/StructuralTests/BridgeTests/DataExportServiceTests.cs:24-29 | the test data gives a header line and one row line |
| DataExportService.SingleRowText | CSharpCourse.DesignPatterns.Tests/StructuralTests/BridgeTests/DataExportServiceTests.cs:24-29 | the test data as CSV: `id,name,value` and `1,Test Item,42.5`, each with a line terminator |
| DataExportService.NoCompressionRoundTrip | CSharpCourse.DesignPatterns/Structural/Bridge/DataExportService.cs:125-130 | decompressing what was compressed gives the data back; both are the identity and the extension is empty |
| Warehouse.MakeStockQuantity | CSharpCourse.DesignPatterns/Structural/Proxy/Warehouse.cs:47-68 | a quantity is created iff the value is a positive multiple of 20, and then holds that value; otherwise `ArgumentException("Invalid value")` |
| Warehouse.TotalAppend | CSharpCourse.DesignPatterns/Structural/Proxy/Warehouse.cs:25-86 | a restock adds its amount to its own item's total and to no other |
| Warehouse.TotalOfValidQuantities | CSharpCourse.DesignPatterns/Structural/Proxy/Warehouse.cs:49-81 | a sum of quantities a `StockQuantity` can hold (positive multiples of 20, or the 0 of a default quantity) is again 0 or a positive multiple of 20 |
| Warehouse.PrimitiveWarehouse.constructor | CSharpCourse.DesignPatterns/Structural/Proxy/Warehouse.cs:12 | a new primitive warehouse is empty |
| Warehouse.PrimitiveWarehouse.Restock | CSharpCourse.DesignPatterns/Structural/Proxy/Warehouse.cs:14-33 | any amount is accepted: the item's stock becomes the 32-bit wrapped sum, the other items' stock is kept |
| Int32.WrapOfSum | CSharpCourse.DesignPatterns/Structural/Proxy/Warehouse.cs:27 | wrapping after each addition equals wrapping the exact total, so each stock is the wrapped sum of its restocks |
| Warehouse.Warehouse.constructor | CSharpCourse.DesignPatterns/Structural/Proxy/Warehouse.cs:73 | a new warehouse is empty |
| Warehouse.Warehouse.Restock | CSharpCourse.DesignPatterns/Structural/Proxy/Warehouse.cs:75-87 | accepts any quantity a `StockQuantity` can hold, `default` (0) included: an item not stocked yet stores it as it is; a stocked item succeeds iff the exact sum fits in 32 bits and is not 0, and then adds the quantity; a wrapped or zero sum is rejected by the setter with `ArgumentException("Invalid value")` and changes nothing; other items' stock is kept |
| Warehouse.Warehouse.RestockAmount | CSharpCourse.DesignPatterns/Structural/Proxy/Warehouse.cs:68-87 | an `int` that is not a positive multiple of 20 throws `ArgumentException("Invalid value")`; a valid one succeeds iff the item is not stocked yet or the exact sum fits in 32 bits, and is then added and recorded; a thrown outcome leaves the stock and the restock history unchanged |
| Warehouse.WarehouseStockIsValid | CSharpCourse.DesignPatterns/Structural/Proxy/Warehouse.cs:71-90 | every stock the warehouse reports is 0 or a positive multiple of 20 |
| Warehouse.DefaultQuantityScenario | CSharpCourse.DesignPatterns/Structural/Proxy/Warehouse.cs:40-86 | a default quantity for an unstocked item is stored as 0; a second one for that item sums to 0 and throws `ArgumentException("Invalid value")`, leaving the stock at 0 |
| Warehouse.PrimitiveOverflowScenario | CSharpCourse.DesignPatterns/Structural/Proxy/Warehouse.cs:14-36 | a fresh primitive warehouse restocked with `int.MaxValue` and then 1 of the same item reports a stock of `int.MinValue` |
| Warehouse.PrimitiveScenario | CSharpCourse.DesignPatterns.Tests/StructuralTests/ProxyTests/WarehouseTests.cs:8-19 | the `PrimitiveObsession` test: 20 pasta and 10 rice are both accepted |
| Warehouse.ValueProxyScenario | CSharpCourse.DesignPatterns.Tests/StructuralTests/ProxyTests/WarehouseTests.cs:22-33 | the `ValueProxy` test: 10 rice throws `ArgumentException`; stocks are 20 pasta and 0 rice |
| BankAccount.Moved | CSharpCourse.DesignPatterns/Structural/Proxy/BankAccount.cs:23-24 | a transfer between two accounts conserves their total, adds the amount to the recipient and takes it from the sender |
| BankAccount.BankAccount.constructor | CSharpCourse.DesignPatterns/Structural/Proxy/BankAccount.cs:16-19 | the balance is the given one |
| BankAccount.BankAccount.Transfer | CSharpCourse.DesignPatterns/Structural/Proxy/BankAccount.cs:21-25 | between two accounts the balances move by the amount and their sum is kept; a transfer to the same account leaves its balance unchanged |
| BankAccount.NoValidation | CSharpCourse.DesignPatterns/Structural/Proxy/BankAccount.cs:21-25 | an overdraft or a negative amount is accepted: the sender goes negative or the recipient loses money |
| BankAccount.BankScenario | CSharpCourse.DesignPatterns.Tests/StructuralTests/ProxyTests/BankAccountTests.cs:8-22 | the `BankAccount` test: a self-transfer keeps 1000; after the balance is set to 1000000000 and sent in full, Mario has 0 and Luigi 1000000500 |
| GlyphSharing.Glyph.constructor | CSharpCourse.DesignPatterns/Structural/Flyweight/GlyphSharing.cs:18-23 | the glyph holds the given symbol, font and size |
| GlyphSharing.UnderscoreInLongerTail | CSharpCourse.DesignPatterns/Structural/Flyweight/GlyphSharing.cs:38 | in two equal `_`-joined keys, the shorter tail is preceded by `_` inside the longer one |
| GlyphSharing.SplitAtLastUnderscore | CSharpCourse.DesignPatterns/Structural/Flyweight/GlyphSharing.cs:38 | a key whose last part has no `_` splits at only one place |
| GlyphSharing.NoUnderscoreInNumber | CSharpCourse.DesignPatterns/Structural/Flyweight/GlyphSharing.cs:38 | the decimal text of the size holds no `_` |
| GlyphSharing.KeyInjective | CSharpCourse.DesignPatterns/Structural/Flyweight/GlyphSharing.cs:38 | the key `{symbol}_{font}_{size}`, as UTF-16 code units, determines symbol, font and size, even for a font containing `_` |
| GlyphSharing.GlyphFactory.constructor | CSharpCourse.DesignPatterns/Structural/Flyweight/GlyphSharing.cs:34 | a new factory caches nothing |
| GlyphSharing.GlyphFactory.CachedIffRequested | CSharpCourse.DesignPatterns/Structural/Flyweight/GlyphSharing.cs:38-44 | a key is cached iff its triple was requested before |
| GlyphSharing.GlyphFactory.GetGlyph | CSharpCourse.DesignPatterns/Structural/Flyweight/GlyphSharing.cs:36-47 | returns a glyph with the requested symbol, font and size; a repeated request returns the cached object and leaves the cache alone; a first request caches a new glyph under its key; the count grows by one exactly on a first request |
| GlyphSharing.RequestTwice | CSharpCourse.DesignPatterns/Structural/Flyweight/GlyphSharing.cs:36-47 | two identical requests return the same object and add at most one glyph |
| GlyphSharing.Triples | CSharpCourse.DesignPatterns/Structural/Flyweight/GlyphSharing.cs:36-47 | every code unit of the content is asked for in the given font and size |
| GlyphSharing.TriplesStep | CSharpCourse.DesignPatterns/Structural/Flyweight/GlyphSharing.cs:36-47 | one more character asks for one more triple |
| GlyphSharing.Character.constructor | CSharpCourse.DesignPatterns/Structural/Flyweight/GlyphSharing.cs:59-64 | the character holds the given glyph and position |
| GlyphSharing.Place | CSharpCourse.DesignPatterns.Tests/StructuralTests/FlyweightTests/GlyphSharingTests.cs:20-22 | a placed character holds the glyph for its symbol, font and size at the given position, and the factory records the request |
| GlyphSharing.LaidOutStep | CSharpCourse.DesignPatterns.Tests/StructuralTests/FlyweightTests/GlyphSharingTests.cs:18-23 | placing the next character at the next column keeps the document laid out |
| GlyphSharing.Typeset | CSharpCourse.DesignPatterns.Tests/StructuralTests/FlyweightTests/GlyphSharingTests.cs:18-23 | the loop places one character per UTF-16 code unit of the content (the `char`s a `foreach` yields), left to right at columns 0, 1, ... of row 0, each with its symbol's glyph, and the factory has been asked for exactly the content's triples |
| GlyphSharing.PlaceNext | CSharpCourse.DesignPatterns.Tests/StructuralTests/FlyweightTests/GlyphSharingTests.cs:20-22 | one loop step: the document grows by one laid-out character and the factory has been asked for the triples so far |
| GlyphSharing.ScenarioUnits | CSharpCourse.DesignPatterns.Tests/StructuralTests/FlyweightTests/GlyphSharingTests.cs:15 | `AAABBBCCC` is nine code units: three 65s, three 66s and three 67s |
| GlyphSharing.ScenarioTriples | CSharpCourse.DesignPatterns.Tests/StructuralTests/FlyweightTests/GlyphSharingTests.cs:14-32 | `AAABBBCCC` asks for three distinct glyphs |
| GlyphSharing.TypesetFresh | CSharpCourse.DesignPatterns.Tests/StructuralTests/FlyweightTests/GlyphSharingTests.cs:10-31 | typesetting with a fresh factory lays the content out and leaves one glyph per distinct (code unit, font, size) |
| GlyphSharing.GlyphScenario | CSharpCourse.DesignPatterns.Tests/StructuralTests/FlyweightTests/GlyphSharingTests.cs:8-32 | the test: after typesetting `AAABBBCCC`, the factory holds 3 glyphs |
| GlyphSharing.GrinningFaceUnits | CSharpCourse.DesignPatterns.Tests/StructuralTests/FlyweightTests/GlyphSharingTests.cs:18 | U+1F600 is the two code units 0xD83D and 0xDE00 |
| GlyphSharing.SurrogatePairScenario | CSharpCourse.DesignPatterns.Tests/StructuralTests/FlyweightTests/GlyphSharingTests.cs:18-23 | the test's loop on one emoji places two characters, at columns 0 and 1, holding glyphs for the high and the low surrogate, and the factory holds 2 glyphs |
| EmailValidator.Body | CSharpCourse.DesignPatterns/Structural/Flyweight/EmailValidator.cs:9 | the string with at most one final `\n` removed, the one `$` may match before |
| EmailValidator.IndexOf | CSharpCourse.DesignPatterns/Structural/Flyweight/EmailValidator.cs:9 | the position of the first occurrence, with no occurrence before it; the length iff there is none |
| EmailValidator.BodyMatchEndsPlain | CSharpCourse.DesignPatterns/Structural/Flyweight/EmailValidator.cs:9 | a match of the unanchored body ends in a plain character, so holds no final `\n` |
| EmailValidator.SplitAtFirstAt | CSharpCourse.DesignPatterns/Structural/Flyweight/EmailValidator.cs:9 | in a match the pattern's `@` is the first `@` of the string |
| EmailValidator.SplitDomain | CSharpCourse.DesignPatterns/Structural/Flyweight/EmailValidator.cs:9 | the text after a match's `@` is plain and has a `.` that is neither its first nor its last character |
| EmailValidator.BodyMatchesAccepted | CSharpCourse.DesignPatterns/Structural/Flyweight/EmailValidator.cs:9 | a body matching the pattern has an `@`, a non-empty plain local part and a well-shaped domain |
| EmailValidator.AcceptedBodyMatches | CSharpCourse.DesignPatterns/Structural/Flyweight/EmailValidator.cs:9 | conversely, such a body matches the pattern |
| EmailValidator.MatchIsAccepted | CSharpCourse.DesignPatterns/Structural/Flyweight/EmailValidator.cs:9 | every match of the anchored pattern is an accepted address |
| EmailValidator.AcceptedIsMatch | CSharpCourse.DesignPatterns/Structural/Flyweight/EmailValidator.cs:9 | every accepted address matches the anchored pattern |
| EmailValidator.PatternIff | CSharpCourse.DesignPatterns/Structural/Flyweight/EmailValidator.cs:9 | the pattern `^[^@\s]+@[^@\s]+\.[^@\s]+$` matches exactly the accepted addresses, one final `\n` allowed |
| EmailValidator.OneAtBeforePlainDomain | CSharpCourse.DesignPatterns/Structural/Flyweight/EmailValidator.cs:9 | an address whose domain is plain holds exactly one `@` |
| EmailValidator.ExactlyOneAt | CSharpCourse.DesignPatterns/Structural/Flyweight/EmailValidator.cs:9 | every match holds exactly one `@` |
| EmailValidator.TwoAtsRejected | CSharpCourse.DesignPatterns/Structural/Flyweight/EmailValidator.cs:9 | an address with two or more `@` never matches |
| EmailValidator.PlainAddressMatches | CSharpCourse.DesignPatterns/Structural/Flyweight/EmailValidator.cs:9 | `a@b.c` matches |
| EmailValidator.OneNewlineMatches | CSharpCourse.DesignPatterns/Structural/Flyweight/EmailValidator.cs:9 | `a@b.c` followed by one line feed matches |
| EmailValidator.TwoNewlinesRejected | CSharpCourse.DesignPatterns/Structural/Flyweight/EmailValidator.cs:9 | `a@b.c` followed by two line feeds does not match |
| EmailValidator.MissingLocalPartRejected | CSharpCourse.DesignPatterns/Structural/Flyweight/EmailValidator.cs:9 | `@b.c` does not match |
| EmailValidator.MissingTopLevelRejected | CSharpCourse.DesignPatterns/Structural/Flyweight/EmailValidator.cs:9 | `a@b.` does not match |
| NeuralNetwork.Neuron.constructor | CSharpCourse.DesignPatterns/Structural/Composite/NeuralNetwork.cs:16-23 | a new neuron holds the value and has no incoming or outgoing connections |
| NeuralNetwork.NeuronLayer.constructor | CSharpCourse.DesignPatterns/Structural/Composite/NeuralNetwork.cs:34-37 | a layer holds its neurons in order |
| NeuralNetwork.PrefixStep | CSharpCourse.DesignPatterns/Structural/Composite/NeuralNetwork.cs:48-55 | one more source adds its edges after those of the sources before it |
| NeuralNetwork.Link | CSharpCourse.DesignPatterns/Structural/Composite/NeuralNetwork.cs:52-53 | `to` is appended to `from`'s outgoing list and `from` to `to`'s incoming list |
| NeuralNetwork.ConnectFrom | CSharpCourse.DesignPatterns/Structural/Composite/NeuralNetwork.cs:50-54 | the inner loop: the source gains every target in order, and each neuron gains the source once per time it occurs among the targets |
| NeuralNetwork.ConnectAll | CSharpCourse.DesignPatterns/Structural/Composite/NeuralNetwork.cs:48-55 | the nested loops: each neuron's outgoing and incoming lists gain exactly the edges of every source to every target, in loop order |
| NeuralNetwork.ConnectTo | CSharpCourse.DesignPatterns/Structural/Composite/NeuralNetwork.cs:42-56 | the same neuron or layer on both sides changes nothing; otherwise every neuron involved gains exactly the nested loops' edges |
| NeuralNetwork.OutAddedLength | CSharpCourse.DesignPatterns/Structural/Composite/NeuralNetwork.cs:48-55 | a neuron gains as many outgoing edges as its occurrences among the sources times the number of targets |
| NeuralNetwork.OutAddedMembers | CSharpCourse.DesignPatterns/Structural/Composite/NeuralNetwork.cs:48-55 | a neuron gains an outgoing edge to `x` iff it is a source and `x` a target |
| NeuralNetwork.HitsIsRepeat | CSharpCourse.DesignPatterns/Structural/Composite/NeuralNetwork.cs:50-54 | in one source's inner loop, a neuron gains that source once per time it occurs among the targets |
| NeuralNetwork.InAddedLength | CSharpCourse.DesignPatterns/Structural/Composite/NeuralNetwork.cs:48-55 | a neuron gains as many incoming edges as there are sources times its occurrences among the targets |
| NeuralNetwork.InAddedMembers | CSharpCourse.DesignPatterns/Structural/Composite/NeuralNetwork.cs:48-55 | a neuron gains an incoming edge from `x` iff `x` is a source and it is a target |
| NeuralNetwork.OutAddedOnce | CSharpCourse.DesignPatterns/Structural/Composite/NeuralNetwork.cs:48-55 | a source occurring once gains exactly the targets, in their order |
| NeuralNetwork.NotInOutAdded | CSharpCourse.DesignPatterns/Structural/Composite/NeuralNetwork.cs:48-55 | a neuron that is not a source gains no outgoing edge |
| NeuralNetwork.InAddedOnce | CSharpCourse.DesignPatterns/Structural/Composite/NeuralNetwork.cs:48-55 | a target occurring once gains exactly the sources, in their order |
| NeuralNetwork.SelfConnection | CSharpCourse.DesignPatterns/Structural/Composite/NeuralNetwork.cs:44-45 | connecting a neuron to itself adds no edge |
| NeuralNetwork.NeuronToNeuronScenario | CSharpCourse.DesignPatterns.Tests/StructuralTests/CompositeTests/NeuralNetworkTests.cs:8-18 | the `NeuronToNeuron` test: one edge from the first neuron to the second |
| NeuralNetwork.ConnectedLayers | CSharpCourse.DesignPatterns.Tests/StructuralTests/CompositeTests/NeuralNetworkTests.cs:62-69 | connecting two layers of two distinct neurons adds the nested loops' edges |
| NeuralNetwork.ScenarioEdges | CSharpCourse.DesignPatterns.Tests/StructuralTests/CompositeTests/NeuralNetworkTests.cs:71-82 | for two layers of distinct neurons, each source gains both targets and each target both sources, in order |
| NeuralNetwork.LayerToLayerScenario | CSharpCourse.DesignPatterns.Tests/StructuralTests/CompositeTests/NeuralNetworkTests.cs:60-82 | the `NeuronLayerToNeuronLayer` test: outgoing lists [n3, n4] and incoming lists [n1, n2] |
| Priceable.PriceIsSumOfLeaves | CSharpCourse.DesignPatterns.Tests/StructuralTests/CompositeTests/PriceableTests.cs:24-34 | the price of an item or a box of any nesting is the sum of the prices of all the items it contains |
| Priceable.ItemsPriceIsSumOfLeaves | CSharpCourse.DesignPatterns.Tests/StructuralTests/CompositeTests/PriceableTests.cs:31 | the same for the contents of a box |
| Priceable.ItemsPriceAppend | CSharpCourse.DesignPatterns.Tests/StructuralTests/CompositeTests/PriceableTests.cs:31 | the price of two runs of contents together is the sum of their prices |
| Priceable.EmptyAndNested | CSharpCourse.DesignPatterns/Structural/Composite/Priceable.cs:21-29 | an empty box costs nothing, and wrapping a box in another box does not change its price |
| Priceable.SwapKeepsPrice | CSharpCourse.DesignPatterns.Tests/StructuralTests/CompositeTests/PriceableTests.cs:31 | swapping two neighbouring contents keeps a box's price |
| Priceable.RemoveAtMultiset | CSharpCourse.DesignPatterns.Tests/StructuralTests/CompositeTests/PriceableTests.cs:31 | removing one element of the contents removes exactly one occurrence of it |
| Priceable.ItemsPriceRemoveAt | CSharpCourse.DesignPatterns.Tests/StructuralTests/CompositeTests/PriceableTests.cs:31 | the contents' price is the price without one element plus that element's price |
| Priceable.PermutationKeepsPrice | CSharpCourse.DesignPatterns.Tests/StructuralTests/CompositeTests/PriceableTests.cs:31 | contents holding the same elements in any order have the same price |
| Priceable.InnerBox | CSharpCourse.DesignPatterns.Tests/StructuralTests/CompositeTests/PriceableTests.cs:17-21 | the inner box costs 125.48 |
| Priceable.SampleTree | CSharpCourse.DesignPatterns.Tests/StructuralTests/CompositeTests/PriceableTests.cs:13-39 | the tests' tree costs 170.46 |
| UserRepository.Lookup | CSharpCourse.DesignPatterns/Structural/Decorator/UserRepository.cs:38-46 | the stored user iff the id is present, otherwise `KeyNotFoundException` naming the id |
| UserRepository.SaveThenGet | CSharpCourse.DesignPatterns/Structural/Decorator/UserRepository.cs:38-52 | a saved user is found under its id |
| UserRepository.SaveKeepsOthers | CSharpCourse.DesignPatterns/Structural/Decorator/UserRepository.cs:48-52 | saving a user leaves every other id's lookup unchanged |
| UserRepository.UserStore.constructor | CSharpCourse.DesignPatterns/Structural/Decorator/UserRepository.cs:36 | a new repository holds no users |
| UserRepository.UserStore.GetById | CSharpCourse.DesignPatterns/Structural/Decorator/UserRepository.cs:38-46 | answers the dictionary lookup and changes no user |
| UserRepository.UserStore.Save | CSharpCourse.DesignPatterns/Structural/Decorator/UserRepository.cs:48-52 | inserts or overwrites the user under its id |
| UserRepository.CacheKeyInjective | CSharpCourse.DesignPatterns/Structural/Decorator/UserRepository.cs:110-125 | distinct ids have distinct `user_{id}` keys |
| UserRepository.CachingUserRepository.constructor | CSharpCourse.DesignPatterns/Structural/Decorator/UserRepository.cs:102-106 | wraps the repository with an empty cache |
| UserRepository.CachingUserRepository.GetById | CSharpCourse.DesignPatterns/Structural/Decorator/UserRepository.cs:108-120 | the answer is always the inner repository's; a hit does not call it, a miss calls it once and caches a found user (a thrown lookup caches nothing); cached users stay equal to the stored ones |
| UserRepository.CachingUserRepository.Save | CSharpCourse.DesignPatterns/Structural/Decorator/UserRepository.cs:122-126 | saves through and evicts that user's cache entry only |
| UserRepository.ValidationErrors | CSharpCourse.DesignPatterns/Structural/Decorator/UserRepository.cs:167-174 | no errors iff the id is positive and the name is not empty or white space; each failing rule is named |
| UserRepository.ValidationUserRepository.constructor | CSharpCourse.DesignPatterns/Structural/Decorator/UserRepository.cs:138-142 | wraps the repository |
| UserRepository.ValidationUserRepository.GetById | CSharpCourse.DesignPatterns/Structural/Decorator/UserRepository.cs:144-152 | a non-positive id throws `ArgumentException("Invalid user ID", "id")` before anything is called; otherwise the caching repository answers |
| UserRepository.ValidationUserRepository.Save | CSharpCourse.DesignPatterns/Structural/Decorator/UserRepository.cs:154-164 | an invalid user throws `ValidationException` with the failed rules and changes nothing; a valid one is saved and evicted from the cache |
| UserRepository.MultipleDecorators | CSharpCourse.DesignPatterns.Tests/StructuralTests/DecoratorTests/UserRepositoryTests.cs:37-60 | the `MultipleDecorators` test: two lookups of user 1 through validation and caching return the user, and the store is called once |
| MultimediaPlayer.AudioPlayer.constructor | CSharpCourse.DesignPatterns/Structural/Decorator/MultimediaPlayer.cs:18 | a new audio player has an empty name |
| MultimediaPlayer.AudioPlayer.PlayAudio | CSharpCourse.DesignPatterns/Structural/Decorator/MultimediaPlayer.cs:17 | writes `Playing audio track...` |
| MultimediaPlayer.VideoPlayer.constructor | CSharpCourse.DesignPatterns/Structural/Decorator/MultimediaPlayer.cs:30 | a new video player has an empty name |
| MultimediaPlayer.VideoPlayer.PlayVideo | CSharpCourse.DesignPatterns/Structural/Decorator/MultimediaPlayer.cs:29 | writes `Playing video content...` |
| MultimediaPlayer.MultimediaPlayer.constructor | CSharpCourse.DesignPatterns/Structural/Decorator/MultimediaPlayer.cs:37-39 | a new player has an empty name, owns a fresh audio and a fresh video player, and all three names agree |
| MultimediaPlayer.MultimediaPlayer.SetName | CSharpCourse.DesignPatterns/Structural/Decorator/MultimediaPlayer.cs:50-55 | sets the name on the player and on both inner players, keeping them synchronised |
| MultimediaPlayer.MultimediaPlayer.PlayAudio | CSharpCourse.DesignPatterns/Structural/Decorator/MultimediaPlayer.cs:42 | delegates to the audio player and writes its line |
| MultimediaPlayer.MultimediaPlayer.PlayVideo | CSharpCourse.DesignPatterns/Structural/Decorator/MultimediaPlayer.cs:43 | delegates to the video player and writes its line |
| MultimediaPlayer.NameScenario | CSharpCourse.DesignPatterns.Tests/StructuralTests/DecoratorTests/MultimediaPlayerTests.cs:9-40 | the test: after setting the name, the player and both inner players report it |
| RuleVisitor.AllHoldIff | CSharpCourse.DesignPatterns.Tests/BehavioralTests/VisitorTests/RuleVisitorTests.cs:116 | `All` over the sub-rules holds iff every sub-rule holds |
| RuleVisitor.AnyHoldsIff | CSharpCourse.DesignPatterns.Tests/BehavioralTests/VisitorTests/RuleVisitorTests.cs:117 | `Any` over the sub-rules holds iff some sub-rule holds |
| RuleVisitor.AndOrSemantics | CSharpCourse.DesignPatterns.Tests/BehavioralTests/VisitorTests/RuleVisitorTests.cs:112-123 | an and-rule holds iff all its sub-rules hold, an or-rule iff at least one does |
| RuleVisitor.Defaults | CSharpCourse.DesignPatterns/Behavioral/Visitor/RuleVisitor.cs:10-33 | the default rules: an empty and-rule and a minimum length of 0 accept every value; an empty or-rule and an empty character list accept none |
| RuleVisitor.ContainsCharacterSearchesCodeUnits | CSharpCourse.DesignPatterns.Tests/BehavioralTests/VisitorTests/RuleVisitorTests.cs:119 | for a `char` below U+10000, the rule holds iff that code unit occurs in the value's UTF-16 encoding, as `string.Contains(char)` searches |
| RuleVisitor.BasicPlaneCharacterList | CSharpCourse.DesignPatterns.Tests/BehavioralTests/VisitorTests/RuleVisitorTests.cs:120 | for a character list below U+10000, the rule holds iff some listed character occurs in the value |
| RuleVisitor.SharedCharacterSatisfiesList | CSharpCourse.DesignPatterns.Tests/BehavioralTests/VisitorTests/RuleVisitorTests.cs:120 | a character below U+10000 that the list and the value share satisfies the rule |
| RuleVisitor.SurrogatePairs | CSharpCourse.DesignPatterns.Tests/BehavioralTests/VisitorTests/RuleVisitorTests.cs:118-120 | `Length` counts code units: one emoji (two surrogates) meets a minimum length of 2 but not 3; a list holding one emoji is satisfied by another emoji with the same high surrogate |
| RuleVisitor.WeakPasswordRejected | CSharpCourse.DesignPatterns.Tests/BehavioralTests/VisitorTests/RuleVisitorTests.cs:137-138 | `admin` has 5 code units and fails the length condition, so the password rule rejects it |
| RuleVisitor.DigitSatisfiesEither | CSharpCourse.DesignPatterns.Tests/BehavioralTests/VisitorTests/RuleVisitorTests.cs:13-27 | a value with a digit satisfies the or-rule of the password rule |
| RuleVisitor.LongWithDigitPasses | CSharpCourse.DesignPatterns.Tests/BehavioralTests/VisitorTests/RuleVisitorTests.cs:8-28 | a value of at least 8 code units with a digit passes the password rule |
| RuleVisitor.StrongPasswordAccepted | CSharpCourse.DesignPatterns.Tests/BehavioralTests/VisitorTests/RuleVisitorTests.cs:140-141 | `admin123` passes the password rule |
| RuleVisitor.PasswordSamples | CSharpCourse.DesignPatterns.Tests/BehavioralTests/VisitorTests/RuleVisitorTests.cs:134-142 | the test's password rule rejects `admin` and accepts `admin123` |
| RuleVisitor.Spaces | CSharpCourse.DesignPatterns.Tests/BehavioralTests/VisitorTests/RuleVisitorTests.cs:58-61 | two spaces per level |
| RuleVisitor.RenderAppend | CSharpCourse.DesignPatterns.Tests/BehavioralTests/VisitorTests/RuleVisitorTests.cs:56-109 | the text of two runs of lines is the first's text followed by the second's |
| RuleVisitor.RenderLines | CSharpCourse.DesignPatterns.Tests/BehavioralTests/VisitorTests/RuleVisitorTests.cs:56-109 | a node writes its own line, then its sub-rules' lines |
| RuleVisitor.RenderCons | CSharpCourse.DesignPatterns.Tests/BehavioralTests/VisitorTests/RuleVisitorTests.cs:56-109 | one more line in front writes that line and a line break first |
| RuleVisitor.RenderAllStep | CSharpCourse.DesignPatterns.Tests/BehavioralTests/VisitorTests/RuleVisitorTests.cs:72-83 | each sub-rule's lines follow those of the sub-rules before it |
| RuleVisitor.SizeAllAppend | CSharpCourse.DesignPatterns.Tests/BehavioralTests/VisitorTests/RuleVisitorTests.cs:72-75 | the node count of sub-rules grows by the added rule's count |
| RuleVisitor.OneLinePerNode | CSharpCourse.DesignPatterns.Tests/BehavioralTests/VisitorTests/RuleVisitorTests.cs:56-109 | the message has exactly one line per node of the rule tree |
| RuleVisitor.OneLinePerNodeAll | CSharpCourse.DesignPatterns.Tests/BehavioralTests/VisitorTests/RuleVisitorTests.cs:72-83 | the same for a list of sub-rules |
| RuleVisitor.LinesIndented | CSharpCourse.DesignPatterns.Tests/BehavioralTests/VisitorTests/RuleVisitorTests.cs:58-82 | every line of a node at some level starts with at least that level's indentation |
| RuleVisitor.LinesIndentedAll | CSharpCourse.DesignPatterns.Tests/BehavioralTests/VisitorTests/RuleVisitorTests.cs:72-83 | the same for a list of sub-rules |
| RuleVisitor.BulletIndented | CSharpCourse.DesignPatterns.Tests/BehavioralTests/VisitorTests/RuleVisitorTests.cs:58-66 | a node's line starts with its level's indentation |
| RuleVisitor.SpacesPrefix | CSharpCourse.DesignPatterns.Tests/BehavioralTests/VisitorTests/RuleVisitorTests.cs:58-61 | each level's indentation extends the one above it |
| RuleVisitor.StringBuilder.constructor | CSharpCourse.DesignPatterns.Tests/BehavioralTests/VisitorTests/RuleVisitorTests.cs:43 | a new builder is empty |
| RuleVisitor.StringBuilder.Append | CSharpCourse.DesignPatterns.Tests/BehavioralTests/VisitorTests/RuleVisitorTests.cs:60-65 | appends the text |
| RuleVisitor.StringBuilder.AppendLine | CSharpCourse.DesignPatterns.Tests/BehavioralTests/VisitorTests/RuleVisitorTests.cs:71-103 | appends the text and a line break |
| RuleVisitor.AppendBullet | CSharpCourse.DesignPatterns.Tests/BehavioralTests/VisitorTests/RuleVisitorTests.cs:58-66 | appends `level` times two spaces, then `- ` below the top level |
| RuleVisitor.BuildRequirementsMessage | CSharpCourse.DesignPatterns.Tests/BehavioralTests/VisitorTests/RuleVisitorTests.cs:56-109 | appends the node's line, then each sub-rule's lines one level deeper, in order |
| RuleVisitor.AppendCondition | CSharpCourse.DesignPatterns.Tests/BehavioralTests/VisitorTests/RuleVisitorTests.cs:86-103 | a rule without sub-rules appends exactly its description and one line terminator |
| RuleVisitor.AppendAll | CSharpCourse.DesignPatterns.Tests/BehavioralTests/VisitorTests/RuleVisitorTests.cs:72-83 | the loop over sub-rules appends their lines in order |
| RuleVisitor.Bullets | CSharpCourse.DesignPatterns.Tests/BehavioralTests/VisitorTests/RuleVisitorTests.cs:31-38 | the bullets of levels 0, 1 and 2 |
| RuleVisitor.TwoLeaves | CSharpCourse.DesignPatterns.Tests/BehavioralTests/VisitorTests/RuleVisitorTests.cs:14-27 | two leaf sub-rules give one line each |
| RuleVisitor.PasswordLines | CSharpCourse.DesignPatterns.Tests/BehavioralTests/VisitorTests/RuleVisitorTests.cs:31-38 | the password rule's five lines |
| RuleVisitor.RenderFive | CSharpCourse.DesignPatterns.Tests/BehavioralTests/VisitorTests/RuleVisitorTests.cs:31-38 | five lines are written each followed by a line break |
| RuleVisitor.PasswordLineTexts | CSharpCourse.DesignPatterns.Tests/BehavioralTests/VisitorTests/RuleVisitorTests.cs:31-38 | the text of each of the five lines |
| RuleVisitor.PasswordMessage | CSharpCourse.DesignPatterns.Tests/BehavioralTests/VisitorTests/RuleVisitorTests.cs:40-46 | the `NoVisitor` test: the message for the password rule is the expected five-line text |
| PricingStrategy.StandardCoupon | CSharpCourse.DesignPatterns/Behavioral/Strategy/PricingStrategy.cs:15-26 | the standard price is 10% off iff the coupon is exactly `ABC123`, and the full price otherwise |
| PricingStrategy.BlackFridayIgnoresCoupon | CSharpCourse.DesignPatterns/Behavioral/Strategy/PricingStrategy.cs:40-48 | the Black Friday price does not depend on the coupon, and differs from the full price iff the id is a discounted one (for a non-zero price and a discount other than 1) |
| PricingStrategy.NeverRaisesPrice | CSharpCourse.DesignPatterns/Behavioral/Strategy/PricingStrategy.cs:15-48 | with a non-negative price and a discount between 0 and 1, no strategy raises the price or makes it negative |
| PricingStrategy.ScaleDown | CSharpCourse.DesignPatterns/Behavioral/Strategy/PricingStrategy.cs:21-46 | scaling a non-negative price by a factor between 0 and 1 stays between 0 and the price |
| PricingStrategy.ArticleIds.constructor | CSharpCourse.DesignPatterns/Behavioral/Strategy/PricingStrategy.cs:34 | the caller's id list holds the given ids |
| PricingStrategy.ArticleIds.Add | CSharpCourse.DesignPatterns/Behavioral/Strategy/PricingStrategy.cs:34 | the caller appends an id to its own list |
| PricingStrategy.NewBlackFriday | CSharpCourse.DesignPatterns/Behavioral/Strategy/PricingStrategy.cs:33-38 | the strategy keeps the discount and a copy of the ids as they are at construction |
| PricingStrategy.SnapshotScenario | CSharpCourse.DesignPatterns/Behavioral/Strategy/PricingStrategy.cs:37-45 | an id added to the caller's list after construction is not discounted |
| PricingStrategy.ItemPriceCalculator.constructor | CSharpCourse.DesignPatterns/Behavioral/Strategy/PricingStrategy.cs:55-58 | holds the given strategy |
| PricingStrategy.ItemPriceCalculator.SetStrategy | CSharpCourse.DesignPatterns/Behavioral/Strategy/PricingStrategy.cs:60-63 | replaces the strategy |
| PricingStrategy.ItemPriceCalculator.ApplyPrice | CSharpCourse.DesignPatterns/Behavioral/Strategy/PricingStrategy.cs:65-66 | a copy of the item with the same id and name and the strategy's price |
| PricingStrategy.FuncStrategyItemPriceCalculator.constructor | CSharpCourse.DesignPatterns/Behavioral/Strategy/PricingStrategy.cs:73-77 | holds the given function |
| PricingStrategy.FuncStrategyItemPriceCalculator.SetStrategy | CSharpCourse.DesignPatterns/Behavioral/Strategy/PricingStrategy.cs:79-82 | replaces the function |
| PricingStrategy.FuncStrategyItemPriceCalculator.ApplyPrice | CSharpCourse.DesignPatterns/Behavioral/Strategy/PricingStrategy.cs:84-85 | a copy of the item with the same id and name and the function's price |
| PricingStrategy.PricingScenario | CSharpCourse.DesignPatterns.Tests/BehavioralTests/StrategyTests/PricingStrategyTests.cs:8-45 | the test: 90 with the coupon, 50 on Black Friday, the same after switching strategies, and 80 with the function strategy |
| StockPrice.Observer.Create | CSharpCourse.DesignPatterns/Behavioral/Observer/StockPrice.cs:76-86 | a new observer has received nothing, remembers which optional actions it was given, and has run none |
| StockPrice.Observer.OnNext | CSharpCourse.DesignPatterns/Behavioral/Observer/StockPrice.cs:88 | the value is passed to the `onNext` action |
| StockPrice.Observer.OnError | CSharpCourse.DesignPatterns/Behavioral/Observer/StockPrice.cs:89 | the error action runs once if it was given, and nothing happens otherwise |
| StockPrice.Observer.OnCompleted | CSharpCourse.DesignPatterns/Behavioral/Observer/StockPrice.cs:90 | the completion action runs once if it was given, and nothing happens otherwise |
| StockPrice.ObserverList.constructor | CSharpCourse.DesignPatterns/Behavioral/Observer/StockPrice.cs:9 | a new observer list is empty |
| StockPrice.DeliveredOncePerSubscription | CSharpCourse.DesignPatterns/Behavioral/Observer/StockPrice.cs:20-21 | an observer subscribed `k` times receives the price `k` times |
| StockPrice.Push | CSharpCourse.DesignPatterns/Behavioral/Observer/StockPrice.cs:21 | one notification appends the price to what the observer received |
| StockPrice.StockPrice.constructor | CSharpCourse.DesignPatterns/Behavioral/Observer/StockPrice.cs:9 | a new subject has a fresh, empty observer list |
| StockPrice.StockPrice.Subscribe | CSharpCourse.DesignPatterns/Behavioral/Observer/StockPrice.cs:11-18 | appends the observer and returns a fresh unsubscriber over the same list and observer, not yet disposed |
| StockPrice.StockPrice.UpdatePrice | CSharpCourse.DesignPatterns/Behavioral/Observer/StockPrice.cs:20-21 | each subscribed observer receives the price once per subscription, in list order |
| StockPrice.Unsubscriber.constructor | CSharpCourse.DesignPatterns/Behavioral/Observer/StockPrice.cs:32-36 | holds the shared list and the observer, not disposed |
| StockPrice.Unsubscriber.DisposeCore | CSharpCourse.DesignPatterns/Behavioral/Observer/StockPrice.cs:45-62 | the first call removes the first occurrence of the observer when disposing, and any call leaves it disposed; later calls change nothing |
| StockPrice.Unsubscriber.Dispose | CSharpCourse.DesignPatterns/Behavioral/Observer/StockPrice.cs:39-43 | the first dispose removes one subscription of the observer; later ones change nothing |
| StockPrice.Unsubscriber.Finalize | CSharpCourse.DesignPatterns/Behavioral/Observer/StockPrice.cs:64-67 | the finaliser marks the unsubscriber disposed without touching the list |
| StockPrice.DisposeTwice | CSharpCourse.DesignPatterns/Behavioral/Observer/StockPrice.cs:45-62 | of two subscriptions of one observer, disposing one twice removes only one |
| StockPrice.StockPriceScenario | CSharpCourse.DesignPatterns.Tests/BehavioralTests/ObserverTests/StockPriceTests.cs:8-31 | the test: the observer sees 100, then 200, and after the subscription is disposed still 200 |
| WeatherStation.FlagTracksSample | CSharpCourse.DesignPatterns/Behavioral/Observer/WeatherStation.cs:45-57 | after any sample the notifier's flag records exactly whether that sample was below zero, and it warns iff the sample is below zero and the previous one was not |
| WeatherStation.FeedStep | CSharpCourse.DesignPatterns/Behavioral/Observer/WeatherStation.cs:45-57 | one more sample moves the flag on by one step and appends that step's lines |
| WeatherStation.BelowZeroRunWarnsOnce | CSharpCourse.DesignPatterns/Behavioral/Observer/WeatherStation.cs:47-52 | a run of samples below zero warns once if it starts after a non-negative sample and never if it continues a run, and leaves the flag set |
| WeatherStation.LoggerPrintsAll | CSharpCourse.DesignPatterns/Behavioral/Observer/WeatherStation.cs:35-38 | the logger prints one line per sample, carrying that sample, in order |
| WeatherStation.Listener.constructor | CSharpCourse.DesignPatterns/Behavioral/Observer/WeatherStation.cs:33-43 | a new listener has its flag clear and has printed nothing |
| WeatherStation.Listener.Update | CSharpCourse.DesignPatterns/Behavioral/Observer/WeatherStation.cs:35-57 | the logger prints the temperature; the notifier updates its flag and warns only on the step into below zero |
| WeatherStation.DeliveredOncePerAttach | CSharpCourse.DesignPatterns/Behavioral/Observer/WeatherStation.cs:28-30 | a listener attached `k` times is updated `k` times |
| WeatherStation.ListenerStep | CSharpCourse.DesignPatterns/Behavioral/Observer/WeatherStation.cs:35-57 | one update moves a listener's flag and printed lines on by one sample |
| WeatherStation.Feed | CSharpCourse.DesignPatterns/Behavioral/Observer/WeatherStation.cs:30 | an update moves the listener from its state after some samples to its state after one more |
| WeatherStation.WeatherStation.constructor | CSharpCourse.DesignPatterns/Behavioral/Observer/WeatherStation.cs:19-20 | a new station has no listeners and temperature 0 |
| WeatherStation.WeatherStation.Attach | CSharpCourse.DesignPatterns/Behavioral/Observer/WeatherStation.cs:28 | appends the listener |
| WeatherStation.WeatherStation.Detach | CSharpCourse.DesignPatterns/Behavioral/Observer/WeatherStation.cs:29 | removes the first occurrence of the listener, if any |
| WeatherStation.WeatherStation.Notify | CSharpCourse.DesignPatterns/Behavioral/Observer/WeatherStation.cs:30 | every attached listener is updated with the value once per attachment, in attach order |
| WeatherStation.WeatherStation.SetTemperature | CSharpCourse.DesignPatterns/Behavioral/Observer/WeatherStation.cs:22-26 | stores the temperature and notifies every attached listener with it |
| WeatherStation.SingleSample | CSharpCourse.DesignPatterns/Behavioral/Observer/WeatherStation.cs:30-57 | one sample reaches each listener once; the logger prints it and the notifier warns iff it is below zero |
| WeatherStation.DetachBoth | CSharpCourse.DesignPatterns.Tests/BehavioralTests/ObserverTests/WeatherStationTests.cs:37-45 | detaching the notifier and then the logger leaves no listener |
| WeatherStation.WhileAttached | CSharpCourse.DesignPatterns.Tests/BehavioralTests/ObserverTests/WeatherStationTests.cs:11-36 | while attached, the logger prints 25 and then -5, and the notifier warns once |
| WeatherStation.WeatherStationScenario | CSharpCourse.DesignPatterns.Tests/BehavioralTests/ObserverTests/WeatherStationTests.cs:9-50 | the test: the logger printed only 25 and -5, the notifier warned once, and after both are detached 30 reaches no one |
| FormField.RemoveLast | CSharpCourse.DesignPatterns.Tests/BehavioralTests/ObserverTests/FormFieldTests.cs:36 | `-=` removes one occurrence of the handler when it is subscribed and leaves the list alone when it is not; the multiset of subscriptions loses exactly that handler |
| FormField.RemoveLastUndoesAppend | CSharpCourse.DesignPatterns.Tests/BehavioralTests/ObserverTests/FormFieldTests.cs:30-36 | unsubscribing right after subscribing restores the invocation list |
| FormField.CurrentValueAfter | CSharpCourse.DesignPatterns.Tests/BehavioralTests/ObserverTests/FormFieldTests.cs:20-26 | after one or more calls naming "Value", the test's current value is the sender's value; after none it is unchanged |
| FormField.Handler.constructor | CSharpCourse.DesignPatterns.Tests/BehavioralTests/ObserverTests/FormFieldTests.cs:20-26 | a new handler has received no call |
| FormField.Handler.Invoke | CSharpCourse.DesignPatterns.Tests/BehavioralTests/ObserverTests/FormFieldTests.cs:20-26 | a call is recorded after all earlier ones |
| FormField.Feed | CSharpCourse.DesignPatterns/Behavioral/Observer/FormField.cs:35 | one more call of a handler extends its record by one more copy of the change |
| FormField.FormField.constructor | CSharpCourse.DesignPatterns/Behavioral/Observer/FormField.cs:16-19 | the field holds the initial value and has no subscriber |
| FormField.FormField.Subscribe | CSharpCourse.DesignPatterns.Tests/BehavioralTests/ObserverTests/FormFieldTests.cs:30 | the handler is appended to the invocation list |
| FormField.FormField.Unsubscribe | CSharpCourse.DesignPatterns.Tests/BehavioralTests/ObserverTests/FormFieldTests.cs:36 | the last subscription of the handler is removed, none when it is absent |
| FormField.FormField.OnPropertyChanged | CSharpCourse.DesignPatterns/Behavioral/Observer/FormField.cs:33-36 | every subscribed handler is called once per subscription with the property name and the current value, and no one else is |
| FormField.FormField.SetValue | CSharpCourse.DesignPatterns/Behavioral/Observer/FormField.cs:24-28 | the setter stores the value and raises the event for "Value" even when the value did not change |
| FormField.FormFieldScenario | CSharpCourse.DesignPatterns.Tests/BehavioralTests/ObserverTests/FormFieldTests.cs:9-41 | the test: while subscribed the handler sees "new value"; after unsubscribing it stays on "new value" while the field holds "another value" |
| PackageHandler.Delivery | CSharpCourse.DesignPatterns/Behavioral/ChainOfResponsibility/PackageHandler.cs:13-22 | a package is delivered exactly when its label names a real house; a fake house throws "The house does not exist!" and changes nothing; a missing label fails without delivering |
| PackageHandler.RealHouseIsDelivered | CSharpCourse.DesignPatterns/Behavioral/ChainOfResponsibility/PackageHandler.cs:109-154 | past the warehouse, a real house is never an error: items and label stay, and the package ends delivered iff a mailman is in the chain (or it already was) |
| PackageHandler.FailedDeliveryRollsBack | CSharpCourse.DesignPatterns/Behavioral/ChainOfResponsibility/PackageHandler.cs:113-154 | when the address error escapes a warehouse-free chain, items, label and delivered flag are as before and the fee is untouched or refunded to 0 |
| PackageHandler.FakeHouseThrows | CSharpCourse.DesignPatterns/Behavioral/ChainOfResponsibility/PackageHandler.cs:109-154 | with a fake house and a mailman in a warehouse-free chain, the address exception reaches the top |
| PackageHandler.WarehouseRollsBack | CSharpCourse.DesignPatterns/Behavioral/ChainOfResponsibility/PackageHandler.cs:54-77 | a warehouse never lets the address error out: a real house is delivered with the order packed; a fake one comes back empty, unlabelled, not delivered, with one error line |
| PackageHandler.StandardChainFakeHouse | CSharpCourse.DesignPatterns/Behavioral/ChainOfResponsibility/PackageHandler.cs:54-154 | warehouse, post office, mailman with a fake house: completed, emptied, unlabelled, fee refunded to 0, "Error delivering package: The house does not exist!" printed |
| PackageHandler.StandardChainRealHouse | CSharpCourse.DesignPatterns/Behavioral/ChainOfResponsibility/PackageHandler.cs:54-154 | warehouse, post office, mailman with a real house: delivered with the two order items, labelled, fee charged on those items |
| PackageHandler.Package.constructor | CSharpCourse.DesignPatterns/Behavioral/ChainOfResponsibility/PackageHandler.cs:5-11 | a new package has no items, no label, no fee and is not delivered |
| PackageHandler.Package.Deliver | CSharpCourse.DesignPatterns/Behavioral/ChainOfResponsibility/PackageHandler.cs:13-22 | the package's new state and outcome are those of the delivery function |
| PackageHandler.Handle | CSharpCourse.DesignPatterns/Behavioral/ChainOfResponsibility/PackageHandler.cs:40-154 | handing the package to the chain changes it, ends and prints exactly as the chain's specification says |
| PackageHandler.PackageScenario | CSharpCourse.DesignPatterns.Tests/BehavioralTests/ChainOfResponsibilityTests/PackageHandlerTests.cs:9-65 | the tests: the real house is delivered with non-empty items; the fake house is not delivered, has no items and prints the error |
| HttpMessageHandlers.FirewallDecision | CSharpCourse.DesignPatterns/Behavioral/ChainOfResponsibility/HttpMessageHandlers.cs:14-38 | the firewall answers 400 "Invalid request URI" iff the URI or its host is missing, 403 iff the lower-cased host is blocked, and passes the request on iff it is not |
| HttpMessageHandlers.ToLowerIdempotent | CSharpCourse.DesignPatterns/Behavioral/ChainOfResponsibility/HttpMessageHandlers.cs:18 | lower-casing a host twice is lower-casing it once |
| HttpMessageHandlers.FirewallIgnoresHostCase | CSharpCourse.DesignPatterns/Behavioral/ChainOfResponsibility/HttpMessageHandlers.cs:18-28 | a host's letter case never changes the firewall's answer |
| HttpMessageHandlers.UppercaseEntryNeverMatches | CSharpCourse.DesignPatterns/Behavioral/ChainOfResponsibility/HttpMessageHandlers.cs:9-28 | a blocked-set entry holding an upper-case letter never equals a lower-cased host, so it blocks nothing |
| HttpMessageHandlers.CachePolicy | CSharpCourse.DesignPatterns/Behavioral/ChainOfResponsibility/HttpMessageHandlers.cs:72-102 | the cache only grows, and it changes iff the request is a GET with a non-empty key not yet cached whose fresh response is a success, which is then stored under that key |
| HttpMessageHandlers.HitSkipsInner | CSharpCourse.DesignPatterns/Behavioral/ChainOfResponsibility/HttpMessageHandlers.cs:72-91 | the inner handler is skipped exactly on a cache hit, which returns the cached response; otherwise it is called once and its response returned |
| HttpMessageHandlers.RepeatedGetIsServedFromCache | CSharpCourse.DesignPatterns/Behavioral/ChainOfResponsibility/HttpMessageHandlers.cs:85-102 | a GET repeated after a successful answer is served from the cache with the same response and no call to the inner handler |
| HttpMessageHandlers.HttpClientHandler.constructor | CSharpCourse.DesignPatterns.Tests/BehavioralTests/ChainOfResponsibilityTests/HttpMessageHandlersTests.cs:39 | the network end has made no call |
| HttpMessageHandlers.HttpClientHandler.SendAsync | CSharpCourse.DesignPatterns.Tests/BehavioralTests/ChainOfResponsibilityTests/HttpMessageHandlersTests.cs:39 | the network end answers by its response function and counts the call |
| HttpMessageHandlers.CachingHandler.constructor | CSharpCourse.DesignPatterns/Behavioral/ChainOfResponsibility/HttpMessageHandlers.cs:62-66 | the cache starts empty in front of the given inner handler |
| HttpMessageHandlers.CachingHandler.SendAsync | CSharpCourse.DesignPatterns/Behavioral/ChainOfResponsibility/HttpMessageHandlers.cs:68-105 | the response, the new cache and the number of network calls are those of the caching policy |
| HttpMessageHandlers.FirewallMessageHandler.constructor | CSharpCourse.DesignPatterns/Behavioral/ChainOfResponsibility/HttpMessageHandlers.cs:9-12 | the firewall keeps the blocked hosts and its inner handler |
| HttpMessageHandlers.FirewallMessageHandler.SendAsync | CSharpCourse.DesignPatterns/Behavioral/ChainOfResponsibility/HttpMessageHandlers.cs:14-38 | a refused request is answered by the firewall and touches neither cache nor network; any other request is answered by the caching handler |
| HttpMessageHandlers.ChainScenario | CSharpCourse.DesignPatterns.Tests/BehavioralTests/ChainOfResponsibilityTests/HttpMessageHandlersTests.cs:9-91 | the tests: the blocked host gets 403 with "blocked by firewall"; the first GET to example.com is 200 and cached (one entry); the second is the same 200 without a second network call |
| OpenClosedBad.DiscountRate | CSharpCourse.DesignPatterns/Solid/Bad/OpenClosedBad.cs:10-16 | each type's rate lies in [0, 1), and it is zero exactly for a value outside the three named types (the `_` arm) |
| OpenClosedBad.GetInvoiceDiscount | CSharpCourse.DesignPatterns/Solid/Bad/OpenClosedBad.cs:8-17 | a non-negative amount gets a discount between 0 and the amount, strictly below a positive amount, and the discount is 0 iff the amount is 0 or the type is unnamed |
| OpenClosedBad.DiscountIsRateOfAmount | CSharpCourse.DesignPatterns/Solid/Bad/OpenClosedBad.cs:8-17 | the discount is the amount times its type's rate |
| OpenClosedBad.HundredDiscounts | CSharpCourse.DesignPatterns.Tests/SolidTests/OpenClosedTests.cs:6-29 | the test: 100 gets 15, 25 and 30 for proposed, final and recurring |
| OpenClosedGood.GetInvoiceDiscount | CSharpCourse.DesignPatterns/Solid/Good/OpenClosedGood.cs:9-27 | each override adds to the base discount a share of a non-negative amount no larger than the amount |
| OpenClosedGood.AsSwitched | CSharpCourse.DesignPatterns/Solid/Good/OpenClosedGood.cs:12-28 | each record corresponds to the switch-based invoice of its type, with the same amount |
| OpenClosedGood.AgreesWithSwitch | CSharpCourse.DesignPatterns/Solid/Good/OpenClosedGood.cs:9-28 | the hierarchy gives the same discount as the switch for every invoice |
| OpenClosedGood.EveryNamedTypeHasARecord | CSharpCourse.DesignPatterns/Solid/Bad/OpenClosedBad.cs:20-25 | every switch-based invoice of a named type has a record with the same discount |
| OpenClosedGood.HundredDiscounts | CSharpCourse.DesignPatterns.Tests/SolidTests/OpenClosedTests.cs:32-52 | the test: 100 gets 15, 25 and 30 for the three records |
| LiskovSubstitutionBad.Rectangle.constructor | CSharpCourse.DesignPatterns/Solid/Bad/LiskovSubstitutionBad.cs:3-9 | a new rectangle is 0 by 0 and not a square |
| LiskovSubstitutionBad.Rectangle.Square | CSharpCourse.DesignPatterns/Solid/Bad/LiskovSubstitutionBad.cs:11-26 | a new square is 0 by 0, and its sides stay equal |
| LiskovSubstitutionBad.Rectangle.SetWidth | CSharpCourse.DesignPatterns/Solid/Bad/LiskovSubstitutionBad.cs:5-18 | the width becomes the value; a rectangle's height is untouched while a square's height follows |
| LiskovSubstitutionBad.Rectangle.SetHeight | CSharpCourse.DesignPatterns/Solid/Bad/LiskovSubstitutionBad.cs:6-25 | the height becomes the value; a rectangle's width is untouched while a square's width follows |
| LiskovSubstitutionBad.Rectangle.CalculateArea | CSharpCourse.DesignPatterns/Solid/Bad/LiskovSubstitutionBad.cs:8 | the area is a 32-bit value, and it is the product of the sides whenever that fits |
| LiskovSubstitutionBad.TestRectangle | CSharpCourse.DesignPatterns.Tests/SolidTests/LiskovSubstitutionTests.cs:8-13 | setting width 5 then height 10 yields area 50 iff the object is not a square; a square yields 100 |
| LiskovSubstitutionBad.LiskovScenario | CSharpCourse.DesignPatterns.Tests/SolidTests/LiskovSubstitutionTests.cs:15-23 | the test: the rectangle passes and the square substituted for it fails |
| LiskovSubstitutionGood.CalculateArea | CSharpCourse.DesignPatterns/Solid/Good/LiskovSubstitutionGood.cs:13-26 | every shape's area is a 32-bit value |
| LiskovSubstitutionGood.SquareIsRectangleArea | CSharpCourse.DesignPatterns/Solid/Good/LiskovSubstitutionGood.cs:19-27 | a square of side s has the area of the s by s rectangle |
| LiskovSubstitutionGood.AreaIsProduct | CSharpCourse.DesignPatterns/Solid/Good/LiskovSubstitutionGood.cs:13-16 | within 32 bits the area is the product of the sides, whichever side comes first |
| LiskovSubstitutionGood.DefaultsHaveNoArea | CSharpCourse.DesignPatterns/Solid/Good/LiskovSubstitutionGood.cs:8-27 | default shapes have area 0 |
| LiskovSubstitutionGood.WithSidesHasTheirArea | CSharpCourse.DesignPatterns/Solid/Good/LiskovSubstitutionGood.cs:8-16 | an immutable rectangle given width 5 and height 10 has area 50, whatever rectangle it started from |

## Left out

- Fixed-width overflow in `GameState` and `DinosaurGame`: scores, thresholds, lives and distances are unbounded integers. A level's threshold passes the `int` range only from level 1466 on. Elsewhere `int` wrap-around is modelled (module `Int32`: `Warehouse`, `EvenNumbers.EvenSum`, `LiskovSubstitutionBad`, `LiskovSubstitutionGood`).
- DinosaurGame: `GetObstacle` and `Speed` are left out (random numbers and floating point). The seed drawn from `Random.Shared` is a parameter of `CreateNew`. The "GAME OVER!" console line is not modelled.
- Time stamps of `DocumentMemento`, `ChatMessage` and the `WeatherStation` logger are left out (clock values).
- The `Guid` order id of a package is left out (random identity).
- Cache expiry in `CachingUserRepository` and `CachingHandler` is left out (clock values): caches never expire here.
- Enemy: the stopwatches are values measured in whole milliseconds, and `Elapse` advances them. Frame timing is not modelled.
- DataExportService: `JsonFormatter`, `GZipCompression`, `LocalStorageProvider` and `AzureBlobStorageProvider` are left out (file, cloud and compression I/O).
- DataExportService: the UTF-8 and `StreamWriter` byte layer and the service's orchestration of formatter, compressor and storage are left out (I/O); CSV is modelled at the string level.
- Line terminators: `Environment.NewLine` and `StreamWriter.WriteLine` are the parameter `newline` (or `nl`) in `MarkdownBuilder`, `FluentMarkdownBuilder` and `DataExportService`. In `RuleVisitor` the line terminator is "\n".
- FluentMarkdownBuilder: `AddMonoSpace` and `AddEmptyCell`, called by one of its tests, do not exist in the builder. That test is not modelled.
- VersionedTextEditorDecorator.VersionedTextEditor: only a plain `TextEditor` is wrapped (the source accepts any `ITextEditor`). Stacked decorators are not modelled, so the model does not capture an outer decorator's `ChangeContent`, `UndoInternal` and `RedoInternal` also pushing onto the inner decorator's undo stack and clearing its redo stack. Dafny traits are not used in this model.
- The fluent builders of the creational builder namespace and `LimitedVersionedTextEditor` are not part of this model. Their implementations are not among the modelled files.
- Other classes not part of this model: `GameServer` and `GameClient` (the TicTacToe tests' players, turns and `Winner`, including the `Draw` result; the model covers only those tests' board moves), `ProtectedBankAccount`, `DocumentProxy`, `LoggingProxy`, `RuleVerifier`, `RuleRequirementsBuilder` and `Box.CalculatePrice`. The composite price is the recursive sum its test defines.
- UserRepository: the logging, retry and generic logging decorators (UserRepository.cs:61-91 and 177-236) are left out (`ILogger` and Polly). So is the dependency-injection test. The decorator chain is fixed as validation, then caching, then the store.
- UserRepository.UserStore.Save: `User` is a mutable `record` (UserRepository.cs:19-23) stored and cached by reference, but the model keeps users as values. Changing a saved user's `Id` or `Name` through a shared reference after `Save`, which would change what the store and the cache return, is not captured.
- UserRepository.ValidationErrors: failures are reported as the names of the failing properties. FluentValidation's message texts and exception type are not modelled.
- HttpMessageHandlers: `LoggingHandler` (HttpMessageHandlers.cs:41-55) is left out, since it only writes console lines with the current time.
- HttpMessageHandlers: the HTTP transport, `async`/`Task` and `CloneResponseAsync` are left out (network I/O); the cached response stands for its clone.
- HttpMessageHandlers: request methods other than the standard verbs are not modelled.
- PackageHandler: `CalcFee` (a `double` sum with `Math.Round`) is a function parameter (floating point).
- PackageHandler: the chain of `Next` references is a sequence of handlers; console lines other than the warehouse's error line are not modelled.
- Floating point: `decimal` and `double` values are exact reals. NaN temperatures are not modelled.
- EmailValidator: the regular expression is a hand-written predicate. `RegexOptions.IgnoreCase` has no effect on its pattern, which holds no letters. The identity of the cached `Regex` object is not modelled.
- RuleVisitor.VerifyRule: values and rule texts are Dafny strings, which are sequences of Unicode scalar values. Lengths and character lists are measured on their UTF-16 encoding, as C# measures them. A `ContainsCharacter` rule holds a scalar value, so a rule on a lone surrogate `char`, and a value or text holding an unpaired surrogate, are not expressible.
- GlyphSharing.Typeset: the content is a sequence of UTF-16 code units and each glyph symbol is one code unit, as in C#. Fonts are Dafny strings, so a font holding an unpaired surrogate is not expressible.
- Text.ToLower: only ASCII letters are lower-cased, where `ToLowerInvariant` also folds other letters.
- GlyphSharing: `Glyph.Draw` and `Character.Draw` are left out, since they only write to the console.
- NeuralNetwork: `NeuronLayer` is a plain sequence of neurons. Layer-to-neuron connections follow from the neuron-level `ConnectTo` over the layer's members.
- NeuralNetwork.ConnectTo: the source accepts any `IEnumerable<Neuron>` on either side, such as a neuron's `Out` list; only a neuron or a layer is modelled, and other enumerables are not.
- StockPrice: the exception passed to `OnError` is not modelled; only the number of calls is. `GC.SuppressFinalize` has no counterpart.
- MultimediaPlayer: console output is returned as line values.
- LiskovSubstitutionBad: a square is a `Rectangle` object whose `isSquare` flag selects the overriding setters. The shape kinds of `LiskovSubstitutionGood` are a closed datatype instead of an interface.
- RuleVisitor: the `NotImplementedException` default branch of `VerifyRule` and `BuildRequirementsMessage` cannot be reached with a closed datatype of rules.
- AccountIterator.TotalBalance: requires an iterator that has not yet moved, as in the test. Summing from a partly consumed iterator is not stated.
