# PvP quiz frontend: session client and lobby matchmaking

This project models the two pieces of client-side logic of a multiplayer trivia
frontend, and proves properties about them.

- **The quiz session client** (`src/components/PvPQuiz.jsx`). It keeps one
  room's state: room id, own player id, roster, questions, question index,
  started/over flags and final scores. Socket events change that state. User
  commands check their guards and emit socket messages. It is modelled as the
  class `Quiz.PvPQuiz`. The component's state hooks become fields. Each handler
  becomes a method that returns the messages it emits as `Command` values. The
  one-second `setTimeout` in `handleAnswer` becomes a queue of pending timers
  (`pending`). The timer's captured values are kept in that queue, and `Tick`
  fires the oldest one.
- **The lobby's join-or-create** (`src/components/Lobby.jsx`). A player joins
  the oldest room whose status is `"waiting"`, or inserts a new one-player room
  when there is none. The room choice, the roster append and the two-player
  threshold are pure functions in module `Matchmaking`. The shared `rooms`
  table is the class `RoomTable`, and its insert and update queries are methods.
  The component's `room` and `loading` state is the class `Lobby`, and
  `HandleJoinGame` is proved against the specification function
  `AfterJoinGame`.
- **JavaScript's `String.prototype.trim`**, which `joinRoom` applies to the
  room-id field, is modelled in module `Text`. It covers the full set of
  ECMAScript WhiteSpace and LineTerminator code points.

Things the proofs bring out:

- **Stale advance timer.** The index invariant says the index is 0 or names a
  question. It can break only when a `quizQuestions` event with a shorter list
  arrives while an advance timer is still pending. `OnQuizQuestions` states
  exactly this.
- **The lobby never fills past two.** Suppose every row of the table was written
  by this lobby. Then a waiting room holds exactly one player, each join
  activates the room it lands in, and no roster ever grows past two. The page
  shows "/4", but there is no capacity check, so none is modelled.
- **Answering twice before the timer fires.** Each timer captures the index at
  the moment of the click. Two answers given within the one-second window both
  schedule an advance to the same next question, so the index moves by one
  step while two answers and two score changes are sent. On the last question,
  both timers send `endGame`. `DoubleAnswerScenario` and
  `DoubleFinalAnswerScenario` play these cases through.
- **The realtime subscription is not filtered.** An UPDATE of any row replaces
  the local room, not only updates of the room this client is in. The model
  keeps that behaviour.

Behaviour of the client code that the model keeps, although a room server might be expected to enforce otherwise:

- The client's `startGame` does not check the phase, only the player count.
- The question index is advanced by the client's timer, not by the room
  server.
- Each client emits its own `endGame` after its last answer.

## Model

| member | source | states |
|---|---|---|
| `Text.TrimStart` | src/components/PvPQuiz.jsx:61-63 | the result is the longest suffix of the input that does not start with whitespace; everything cut off is whitespace |
| `Text.TrimEnd` | src/components/PvPQuiz.jsx:61-63 | the result is the longest prefix of the input that does not end with whitespace; everything cut off is whitespace |
| `Text.Trim` | src/components/PvPQuiz.jsx:61-63 | `trim()` returns a contiguous slice of the input with only whitespace on either side of it, and the slice neither starts nor ends with whitespace |
| `Text.TrimEmptyIffBlank` | src/components/PvPQuiz.jsx:61 | the trimmed field is empty (falsy) if and only if the field is empty or whitespace only |
| `Text.TrimOfPadded` | src/components/PvPQuiz.jsx:61-63 | any surrounding whitespace is removed and the inner text is returned unchanged |
| `Quiz.ScoreFor` | src/components/PvPQuiz.jsx:82-86 | the score change is 6 runs and 0 wickets if and only if the selection is "A", and 0 runs and 1 wicket otherwise |
| `Quiz.PlayerNameFor` | src/components/PvPQuiz.jsx:57-63 | the announced player name is the seven characters "Player-" followed by the room id |
| `Quiz.PvPQuiz.constructor` | src/components/PvPQuiz.jsx:11-19 | the initial state: empty ids, roster, questions, scores and input; index 0; both flags false; no timers pending |
| `Quiz.PvPQuiz.SetRoomInput` | src/components/PvPQuiz.jsx:163 | the room-id field holds the typed text |
| `Quiz.PvPQuiz.OnConnect` | src/components/PvPQuiz.jsx:22-24 | `connect` sets the player id to the socket id and changes nothing else |
| `Quiz.PvPQuiz.OnPlayersUpdate` | src/components/PvPQuiz.jsx:26-28 | `playersUpdate` replaces the roster with the received list and changes no other field |
| `Quiz.PvPQuiz.OnStartQuiz` | src/components/PvPQuiz.jsx:30-32 | `startQuiz` sets `gameStarted`; no method ever clears it |
| `Quiz.PvPQuiz.OnQuizQuestions` | src/components/PvPQuiz.jsx:34-37 | `quizQuestions` replaces the question list wholesale and resets the index to 0; the index invariant then holds exactly when no pending advance timer points past the new list |
| `Quiz.PvPQuiz.OnShowLeaderboard` | src/components/PvPQuiz.jsx:39-44 | `showLeaderboard` stores the received list as the scores, sets `gameOver` (never cleared by any method) and navigates to "/leaderboard" with those scores |
| `Quiz.PvPQuiz.CreateRoom` | src/components/PvPQuiz.jsx:51-58 | with a returned id, the room id becomes that id and exactly one `joinRoom` with player name "Player-" + id is emitted; a failed request changes nothing and emits nothing |
| `Quiz.PvPQuiz.JoinRoomFromInput` | src/components/PvPQuiz.jsx:60-65 | an empty or whitespace-only field changes nothing and emits nothing; otherwise the room id becomes the trimmed field (non-empty, not starting with whitespace) and exactly one `joinRoom` with "Player-" + that id is emitted |
| `Quiz.PvPQuiz.StartGameCommands` | src/components/PvPQuiz.jsx:67-77 | nothing is emitted if and only if fewer than two players are present; otherwise `startGame{roomId}` and then `sendQuestions{roomId}` with the three fixed sample questions are emitted, in that order |
| `Quiz.PvPQuiz.HandleAnswer` | src/components/PvPQuiz.jsx:79-98 | emits `submitAnswer{roomId, playerId, answer}` and then exactly one `updateScore` with the score of `ScoreFor`; schedules an advance to index + 1 when that is below the question count, otherwise an `endGame` for the room; the index invariant is preserved |
| `Quiz.PvPQuiz.Tick` | src/components/PvPQuiz.jsx:88-97 | the oldest pending timer fires: an advance sets the index to its captured index and emits nothing; an end timer emits `endGame` for its captured room and leaves the index; the index invariant is preserved |
| `Quiz.PvPQuiz.AnswerAndAwait` | src/components/PvPQuiz.jsx:79-98 | an answer followed by its timer: if a next question exists, the index advances by exactly 1 and no `endGame` is emitted; otherwise the index stays and `endGame{roomId}` is emitted once, after the answer and its score |
| `Quiz.PvPQuiz.View` | src/components/PvPQuiz.jsx:154-255 | an empty room id shows room selection; otherwise before the start the start button shows, disabled exactly when fewer than two players are present; the question view with options A to D shows exactly when the game is started and not over; its text is the question at the current index whenever the index is inside the list, and empty when it is past the list |
| `Matchmaking.OldestWaiting` | src/components/Lobby.jsx:25-31 | the chosen row has status "waiting" and the smallest id among waiting rows; there is no choice if and only if no row is waiting |
| `Matchmaking.Choice` | src/components/Lobby.jsx:25-33 | a failed select chooses no room; otherwise the choice is `OldestWaiting`, so a chosen row is always a waiting row of the table |
| `Matchmaking.AfterJoinGame` | src/components/Lobby.jsx:33-59 | with a chosen room, only that row changes, to `Joined`; with none, a successful insert appends the new one-player waiting room and a failed one leaves the table as it was |
| `Matchmaking.Joined` | src/components/Lobby.jsx:52-59 | the stored row after a join keeps its id and gets the roster with `{name: username, wins: 0}` appended (existing players unchanged and in order, length + 1); it is active exactly when the new roster has at least two players or it already was |
| `Matchmaking.JoinGameAddsOnePlayer` | src/components/Lobby.jsx:22-64 | a join-or-create adds exactly one player to the table, or none when no room was found and creation failed |
| `Matchmaking.JoinGameWaitingCount` | src/components/Lobby.jsx:33-59 | creating adds one waiting room (none on failure); joining closes the chosen room exactly when it already had a player |
| `Matchmaking.JoinGameActivation` | src/components/Lobby.jsx:33-59 | after a join, the stored room is active if and only if its roster has at least two players, and every other row is unchanged; creation appends a waiting row and activates nothing |
| `Matchmaking.JoinGameKeepsIdsUnique` | src/components/Lobby.jsx:35-42 | room ids stay unique when the database assigns a fresh id to an inserted row |
| `Matchmaking.JoinGameKeepsLobbyShape` | src/components/Lobby.jsx:22-64 | in a table written only by this lobby (waiting rooms hold 1 player, active rooms 2), every join activates a one-player room and the shape is kept, so no roster exceeds two |
| `Matchmaking.RoomTable.Insert` | src/components/Lobby.jsx:35-48 | a successful insert appends the row under the assigned id and returns it; a failed one stores nothing and returns nothing |
| `Matchmaking.RoomTable.UpdatePlayers` | src/components/Lobby.jsx:54 | the roster of each row with the given id is replaced; all other rows and fields are unchanged |
| `Matchmaking.RoomTable.UpdateStatus` | src/components/Lobby.jsx:58 | the status of each row with the given id is replaced; all other rows and fields are unchanged |
| `Matchmaking.Lobby.constructor` | src/components/Lobby.jsx:5-6 | no room is shown and no join is in progress |
| `Matchmaking.Lobby.OnRoomUpdated` | src/components/Lobby.jsx:11-14 | an UPDATE of any row replaces the local room wholesale with that row |
| `Matchmaking.Lobby.HandleJoinGame` | src/components/Lobby.jsx:22-64 | the table becomes `AfterJoinGame` of the old table. The local room becomes the chosen row with only its roster replaced, and its status stays "waiting" even when the stored row became active. Or it becomes the created one-player waiting room. If creation failed it is unchanged, and so is the table. `loading` is false on every exit. After a join, Start Game is offered exactly when the stored row became active; after a creation it is not offered |
| `Matchmaking.Lobby.StartOffered` | src/components/Lobby.jsx:83 | Start Game is offered only for a shown room, and then exactly when its roster has at least two players |
| `Matchmaking.Lobby.View` | src/components/Lobby.jsx:70-101 | without a room the join button shows, disabled and captioned "Joining..." while loading; with a room its roster size shows and Start Game is offered if and only if the roster has at least two players |

## Left out

- Transport: the socket.io connection, the `fetch` to the create-room endpoint, the database queries and the realtime channel. Their results are parameters: event payloads, the returned room id, query and insert failure flags, and the id the database assigns. Their effects are returned values: emitted `Command`s and the leaderboard `Navigation`.
- The socket disconnect when the component unmounts (src/components/PvPQuiz.jsx:46-48) and the removal of the realtime channel (src/components/Lobby.jsx:17-19), because they are component lifecycle, not state transitions.
- Time: the timers are modelled only by the order in which they fire, not by the 1000 ms delay.
- Matchmaking.Lobby.HandleJoinGame: modelled as one sequential step, so the race between concurrent joiners reading and then writing the same row is not captured. For the same reason, `loading` being true while the awaits are pending is not observable; only its final value is stated.
- Matchmaking.Lobby.HandleJoinGame: the source ignores errors from the roster and status updates (src/components/Lobby.jsx:54, 58); the model treats both updates as succeeding.
- Quiz.PvPQuiz.CreateRoom: a response whose JSON lacks `roomId` (so the id is `undefined`) is not modelled; a failed request or body is the `None` input.
- Player records: the model keeps only the fields the component reads, `id` and `name`. The room server's other fields, such as scores, are not modelled, because that logic is not in this repository.
- The room server itself: scoring totals, roster broadcasting, ranking and leaderboard generation are not part of this model.
- Matchmaking.Lobby.View: the Start Game button's click handler, which navigates the browser to "/Quiz" (src/components/Lobby.jsx:86-89), is not modelled; only the guard that offers the button is.
- Presentation: styles, animations, the roster list rendering and the "/4" text.
- The other pages (home, authentication, routing, the global leaderboard and the two-player game view) are not part of this model.
