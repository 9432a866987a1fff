/**
 * The quiz session client of the PvPQuiz component: the state it keeps, the
 * socket events that change that state, and the user commands that check
 * their guards and send messages to the room server. Every message the
 * component emits on the socket is returned as a `Command` value; the socket,
 * the HTTP request that creates a room and page navigation are left to the
 * caller.
 */
module Quiz {
  import opened Options
  import opened Text

  /** A roster entry as the room server broadcasts it; the component shows `name` and keys on `id`. */
  datatype Player = Player(id: string, name: string)

  /** A message the component emits on the socket. */
  datatype Command =
    | JoinRoom(roomId: string, playerName: string)
    | StartGame(roomId: string)
    | SendQuestions(roomId: string, questions: seq<string>)
    | SubmitAnswer(roomId: string, playerId: string, answer: string)
    | UpdateScore(roomId: string, playerId: string, runs: int, wickets: int)
    | EndGame(roomId: string)

  /** A one-second timer set by `handleAnswer`, holding the values its callback captured. */
  datatype Timer =
    | Advance(next: nat)
    | SendEndGame(roomId: string)

  /** A page navigation: the route and the scores handed to it. */
  datatype Navigation = Navigation(route: string, scores: seq<Player>)

  /** The score change one answer earns. */
  datatype Score = Score(runs: int, wickets: int)

  /** Which part of the page is rendered below the title. */
  datatype Screen =
    | RoomSelection
    | StartButton(disabled: bool)
    | QuestionView(number: nat, text: string, options: seq<string>)
    | Blank

  /** The three questions the starting client sends to the room. */
  const SampleQuestions: seq<string> := [
    "Which Hogwarts founder valued bravery above all else?",
    "What magical creature guards the entrance to the Headmaster's office?",
    "Which Hogwarts house has a badger as its symbol?"
  ]

  /** The answer buttons of the question view. */
  const AnswerOptions: seq<string> := ["A", "B", "C", "D"]

  /** Option "A" hits a six; every other selection loses a wicket. */
  function ScoreFor(selected: string): (d: Score)
    ensures (d.runs == 6 && d.wickets == 0) <==> selected == "A"
    ensures (d.runs == 0 && d.wickets == 1) <==> selected != "A"
  {
    if selected == "A" then Score(6, 0) else Score(0, 1)
  }

  /** The name a client announces when it enters a room: the room id prefixed with "Player-". */
  function PlayerNameFor(roomId: string): (name: string)
    ensures |name| == 7 + |roomId| && name[..7] == "Player-" && name[7..] == roomId
  {
    "Player-" + roomId
  }

  class PvPQuiz {
    var roomId: string
    var playerId: string
    var players: seq<Player>
    var questions: seq<string>
    var currentQuestionIndex: nat
    var gameStarted: bool
    var gameOver: bool
    var scores: seq<Player>
    var roomInput: string
    /** Timers set by `HandleAnswer` that have not fired yet, oldest first. */
    var pending: seq<Timer>

    /** Every scheduled advance lands inside the current question list. */
    ghost predicate AdvancesFit(n: nat)
      reads this
    {
      forall k :: 0 <= k < |pending| && pending[k].Advance? ==> pending[k].next < n
    }

    /**
     * The question index is 0 or names a question, and so does every
     * advance still waiting on its timer.
     */
    ghost predicate Valid()
      reads this
    {
      (currentQuestionIndex == 0 || currentQuestionIndex < |questions|) && AdvancesFit(|questions|)
    }

    /** The component's initial state. */
    constructor ()
      ensures Valid()
      ensures roomId == "" && playerId == "" && players == [] && questions == []
      ensures currentQuestionIndex == 0 && !gameStarted && !gameOver
      ensures scores == [] && roomInput == "" && pending == []
    {
      roomId, playerId, players, questions := "", "", [], [];
      currentQuestionIndex, gameStarted, gameOver := 0, false, false;
      scores, roomInput, pending := [], "", [];
    }

    /** The room-id text field's change handler. */
    method SetRoomInput(text: string)
      modifies this`roomInput
      ensures roomInput == text
    {
      roomInput := text;
    }

    /** `connect`: the socket's id becomes this client's player id. */
    method OnConnect(socketId: string)
      modifies this`playerId
      ensures playerId == socketId
    {
      playerId := socketId;
    }

    /** `playersUpdate`: the roster is replaced by the received list; nothing else changes. */
    method OnPlayersUpdate(playerList: seq<Player>)
      modifies this`players
      ensures players == playerList
      ensures old(Valid()) ==> Valid()
    {
      players := playerList;
    }

    /** `startQuiz`: the game is marked started. */
    method OnStartQuiz()
      modifies this`gameStarted
      ensures gameStarted
      ensures old(Valid()) ==> Valid()
    {
      gameStarted := true;
    }

    /**
     * `quizQuestions`: the question list is replaced wholesale and the index
     * goes back to the first question. The index invariant then holds exactly
     * when no pending advance timer points past the new list.
     */
    method OnQuizQuestions(qs: seq<string>)
      modifies this`questions, this`currentQuestionIndex
      ensures questions == qs && currentQuestionIndex == 0
      ensures Valid() <==> AdvancesFit(|qs|)
    {
      questions := qs;
      currentQuestionIndex := 0;
    }

    /**
     * `showLeaderboard`: the received list becomes the scores, the game is
     * marked over and the page navigates to the leaderboard with those scores.
     */
    method OnShowLeaderboard(playerList: seq<Player>) returns (nav: Navigation)
      modifies this`scores, this`gameOver
      ensures scores == playerList && gameOver
      ensures nav == Navigation("/leaderboard", playerList)
      ensures old(Valid()) ==> Valid()
    {
      scores := playerList;
      gameOver := true;
      nav := Navigation("/leaderboard", playerList);
    }

    /**
     * `createRoom`: `response` is the room id the server's create endpoint
     * returned, or None when the request or its JSON body failed, in which
     * case nothing happens. Otherwise the client enters that room and announces
     * itself.
     */
    method CreateRoom(response: Option<string>) returns (cmds: seq<Command>)
      modifies this`roomId
      ensures response.None? ==> roomId == old(roomId) && cmds == []
      ensures response.Some? ==>
        roomId == response.value && cmds == [JoinRoom(response.value, PlayerNameFor(response.value))]
      ensures old(Valid()) ==> Valid()
    {
      cmds := [];
      if response.Some? {
        var id := response.value;
        roomId := id;
        cmds := [JoinRoom(id, PlayerNameFor(id))];
      }
    }

    /**
     * `joinRoom`: a room-id field that is empty or whitespace only is ignored;
     * otherwise the client enters the trimmed id and announces itself.
     */
    method JoinRoomFromInput() returns (cmds: seq<Command>)
      modifies this`roomId
      ensures IsBlank(roomInput) ==> roomId == old(roomId) && cmds == []
      ensures !IsBlank(roomInput) ==>
        roomId == Trim(roomInput) && roomId != "" && !IsJsWhitespace(roomId[0])
        && cmds == [JoinRoom(roomId, PlayerNameFor(roomId))]
      ensures old(Valid()) ==> Valid()
    {
      var id := Trim(roomInput);
      TrimEmptyIffBlank(roomInput);
      cmds := [];
      if id != "" {
        roomId := id;
        cmds := [JoinRoom(id, PlayerNameFor(id))];
      }
    }

    /**
     * `startGame`: with fewer than two players nothing is sent; otherwise the
     * start message and then the three sample questions, both for this room.
     */
    method StartGameCommands() returns (cmds: seq<Command>)
      ensures |players| < 2 <==> cmds == []
      ensures |players| >= 2 ==>
        cmds == [StartGame(roomId), SendQuestions(roomId, SampleQuestions)]
    {
      cmds := [];
      if |players| >= 2 {
        cmds := [StartGame(roomId), SendQuestions(roomId, SampleQuestions)];
      }
    }

    /**
     * `handleAnswer`: the answer and then its score change are sent at once;
     * a timer is set that will either move to the next question or, after the
     * last one, end the game. Nothing else changes until that timer fires.
     */
    method HandleAnswer(selected: string) returns (cmds: seq<Command>)
      modifies this`pending
      ensures cmds == [SubmitAnswer(roomId, playerId, selected),
                       UpdateScore(roomId, playerId, ScoreFor(selected).runs, ScoreFor(selected).wickets)]
      ensures currentQuestionIndex + 1 < |questions| ==>
        pending == old(pending) + [Advance(currentQuestionIndex + 1)]
      ensures currentQuestionIndex + 1 >= |questions| ==>
        pending == old(pending) + [SendEndGame(roomId)]
      ensures old(Valid()) ==> Valid()
    {
      var d := ScoreFor(selected);
      cmds := [SubmitAnswer(roomId, playerId, selected), UpdateScore(roomId, playerId, d.runs, d.wickets)];
      var nextIndex := currentQuestionIndex + 1;
      if nextIndex < |questions| {
        pending := pending + [Advance(nextIndex)];
      } else {
        pending := pending + [SendEndGame(roomId)];
      }
    }

    /**
     * The oldest pending timer fires: an advance moves the index to the
     * index it captured, an end-of-game timer sends `endGame` for the room it
     * captured. With no timer pending nothing happens.
     */
    method Tick() returns (cmds: seq<Command>)
      modifies this`pending, this`currentQuestionIndex
      ensures old(pending) == [] ==> pending == [] && currentQuestionIndex == old(currentQuestionIndex) && cmds == []
      ensures old(pending) != [] ==> pending == old(pending)[1..]
      ensures old(pending) != [] && old(pending)[0].Advance? ==>
        currentQuestionIndex == old(pending)[0].next && cmds == []
      ensures old(pending) != [] && old(pending)[0].SendEndGame? ==>
        currentQuestionIndex == old(currentQuestionIndex) && cmds == [EndGame(old(pending)[0].roomId)]
      ensures old(Valid()) ==> Valid()
    {
      cmds := [];
      if pending != [] {
        var t := pending[0];
        pending := pending[1..];
        match t
        case Advance(next) =>
          currentQuestionIndex := next;
        case SendEndGame(id) =>
          cmds := [EndGame(id)];
      }
    }

    /**
     * An answer given while no earlier timer is outstanding, followed by its
     * timer firing: the index moves on by exactly one and no `endGame` is
     * sent when a next question exists; otherwise the index stays and
     * `endGame` follows the answer and its score.
     */
    method AnswerAndAwait(selected: string) returns (cmds: seq<Command>)
      requires pending == []
      modifies this`pending, this`currentQuestionIndex
      ensures pending == []
      ensures |cmds| >= 2
      ensures cmds[..2] == [SubmitAnswer(roomId, playerId, selected),
                            UpdateScore(roomId, playerId, ScoreFor(selected).runs, ScoreFor(selected).wickets)]
      ensures old(currentQuestionIndex) + 1 < |questions| ==>
        currentQuestionIndex == old(currentQuestionIndex) + 1 && |cmds| == 2
      ensures old(currentQuestionIndex) + 1 >= |questions| ==>
        currentQuestionIndex == old(currentQuestionIndex) && cmds[2..] == [EndGame(roomId)]
      ensures forall k :: 0 <= k < |cmds| && cmds[k].EndGame? ==> k == 2
      ensures old(Valid()) ==> Valid()
    {
      var sent := HandleAnswer(selected);
      var fired := Tick();
      cmds := sent + fired;
    }

    /** The current question's text; past the end of the list nothing is rendered. */
    function QuestionText(): string
      reads this
    {
      if currentQuestionIndex < |questions| then questions[currentQuestionIndex] else ""
    }

    /**
     * What the page shows: the room selection until a room id is set; then the
     * start button until the game starts, disabled while fewer than two players
     * are present; then the current question with options A to D until the
     * game is over; then nothing.
     */
    function View(): (v: Screen)
      reads this
      ensures v.RoomSelection? <==> roomId == ""
      ensures v.StartButton? <==> roomId != "" && !gameStarted
      ensures v.StartButton? ==> (v.disabled <==> |players| < 2)
      ensures v.QuestionView? <==> roomId != "" && gameStarted && !gameOver
      ensures v.QuestionView? ==>
        v.number == currentQuestionIndex + 1 && v.options == AnswerOptions
        && (currentQuestionIndex < |questions| ==> v.text == questions[currentQuestionIndex])
        && (currentQuestionIndex >= |questions| ==> v.text == "")
    {
      if roomId == "" then RoomSelection
      else if !gameStarted then StartButton(|players| < 2)
      else if !gameOver then QuestionView(currentQuestionIndex + 1, QuestionText(), AnswerOptions)
      else Blank
    }
  }

  /**
   * A client of room "R1" sees the enabled start button once two players are
   * present, and starting sends the start and then the three questions.
   */
  method StartScenario()
  {
    var a := new PvPQuiz();
    var sent := a.CreateRoom(Some("R1"));
    a.OnPlayersUpdate([Player("sa", "Player-R1"), Player("sb", "Player-R1")]);
    assert a.View() == StartButton(false);
    var start := a.StartGameCommands();
    assert start == [StartGame("R1"), SendQuestions("R1", SampleQuestions)];
  }

  /**
   * A client in room "R1" whose game has started and which has received the
   * three questions answers every one of them, waiting for each timer: it
   * moves through the questions one at a time and sends `endGame` for "R1"
   * once, after its third answer.
   */
  method AnswerRoundScenario()
  {
    var a := new PvPQuiz();
    var sent := a.CreateRoom(Some("R1"));
    a.OnStartQuiz();
    a.OnQuizQuestions(SampleQuestions);
    assert a.View().QuestionView?;
    var c := a.AnswerAndAwait("A");
    assert a.currentQuestionIndex == 1 && |c| == 2;
    c := a.AnswerAndAwait("C");
    assert a.currentQuestionIndex == 2 && |c| == 2;
    c := a.AnswerAndAwait("B");
    assert a.currentQuestionIndex == 2 && c[2..] == [EndGame("R1")];
  }

  /**
   * Two answers given before the first timer fires: each captured the same
   * index, so both timers advance to question 2. Two answers and two score
   * changes are sent, but the index moves by one step only.
   */
  method DoubleAnswerScenario()
  {
    var a := new PvPQuiz();
    a.OnQuizQuestions(SampleQuestions);
    var first := a.HandleAnswer("A");
    var second := a.HandleAnswer("B");
    assert first[1].UpdateScore? && second[1].UpdateScore?;
    assert a.pending == [Advance(1), Advance(1)];
    var c := a.Tick();
    c := a.Tick();
    assert a.currentQuestionIndex == 1 && a.pending == [];
  }

  /**
   * Two answers to the last question before its timer fires: both timers
   * send `endGame`, so the room receives it twice.
   */
  method DoubleFinalAnswerScenario()
  {
    var a := new PvPQuiz();
    a.OnQuizQuestions(["Which Hogwarts house has a badger as its symbol?"]);
    var first := a.HandleAnswer("C");
    var second := a.HandleAnswer("C");
    var c1 := a.Tick();
    var c2 := a.Tick();
    assert c1 == [EndGame("")] && c2 == [EndGame("")];
  }
}
