/** The game page `Home`: seven pieces of view state and the handlers that update them.
    Each handler runs as one atomic step; the network round trip is the `server` parameter. */
module Page {
  import opened Scoring
  import opened Deck

  datatype GameState = Guessing | SubmittingOpinion | Results

  /** What the results screen shows besides the two snapshots. */
  datatype ResultsData = ResultsData(hivemind: real, score: int)

  /** How `fetch('/api/get-results')` ends: `Failed` covers a response that is not ok and a thrown
      error (network, JSON); `Answered` carries the body's `hivemind_average`, which may be missing. */
  datatype FetchOutcome = Failed | Answered(hivemindAverage: Option<real>)

  /** The one button the page shows below the slider or the results. */
  datatype Button = LockInGuess | SubmitOpinion | PlayNextRound

  /** The `min` and `max` of the range input. */
  predicate OnSlider(v: int) {
    0 <= v <= 100
  }

  /** The cycle of phases: "Lock In Guess" leads from guessing to the opinion slider, a successful
      "Submit Opinion" to the results, and "Play Next Round" back to guessing. */
  function NextPhase(s: GameState): (t: GameState)
    ensures t != s
  {
    match s
    case Guessing => SubmittingOpinion
    case SubmittingOpinion => Results
    case Results => Guessing
  }

  class Home {
    var gameState: GameState
    var currentQuestionIndex: int
    var guessValue: int
    var opinionValue: int
    var finalGuess: int
    var finalOpinion: int
    var resultsData: ResultsData

    /** The question index points into the list, and every slider value and snapshot is on the
        slider's scale. */
    ghost predicate Valid()
      reads this
    {
      0 <= currentQuestionIndex < |Questions| &&
      OnSlider(guessValue) && OnSlider(opinionValue) &&
      OnSlider(finalGuess) && OnSlider(finalOpinion)
    }

    /** The initial `useState` values. */
    constructor ()
      ensures Valid()
      ensures gameState == Guessing && currentQuestionIndex == 0
      ensures guessValue == 50 && opinionValue == 50
      ensures finalGuess == 0 && finalOpinion == 0
      ensures resultsData == ResultsData(0.0, 0)
    {
      gameState := Guessing;
      currentQuestionIndex := 0;
      guessValue, opinionValue := 50, 50;
      finalGuess, finalOpinion := 0, 0;
      resultsData := ResultsData(0.0, 0);
    }

    /** `questions[currentQuestionIndex]`, defined in every valid state. */
    function CurrentQuestion(): (q: Question)
      reads this
      requires Valid()
      ensures q in Questions
    {
      Questions[currentQuestionIndex]
    }

    /** The value the range input displays: the guess while guessing, the opinion otherwise. */
    function SliderValue(): (v: int)
      reads this
      requires Valid()
      ensures OnSlider(v)
    {
      if gameState == Guessing then guessValue else opinionValue
    }

    /** The button the page renders in the current phase. */
    function VisibleButton(): (b: Button)
      reads this
      ensures b == LockInGuess <==> gameState == Guessing
      ensures b == PlayNextRound <==> gameState == Results
    {
      match gameState
      case Guessing => LockInGuess
      case SubmittingOpinion => SubmitOpinion
      case Results => PlayNextRound
    }

    /** "Lock In Guess": the phase moves to the opinion slider and nothing else changes. */
    method HandleGuessSubmit()
      requires Valid()
      modifies this
      ensures Valid()
      ensures gameState == SubmittingOpinion
      ensures currentQuestionIndex == old(currentQuestionIndex)
      ensures guessValue == old(guessValue) && opinionValue == old(opinionValue)
      ensures finalGuess == old(finalGuess) && finalOpinion == old(finalOpinion)
      ensures resultsData == old(resultsData)
    {
      gameState := SubmittingOpinion;
    }

    /** "Submit Opinion": asks the server for the aggregate of the current question and returns the
        `question_id` it sent. A failed fetch changes nothing; an answer snapshots both sliders,
        stores the hivemind value and the score, and moves to the results. */
    method HandleOpinionSubmit(server: int -> FetchOutcome) returns (questionId: int)
      requires Valid()
      modifies this
      ensures Valid()
      ensures questionId == old(currentQuestionIndex)
      ensures currentQuestionIndex == old(currentQuestionIndex)
      ensures guessValue == old(guessValue) && opinionValue == old(opinionValue)
      ensures server(questionId).Failed? ==>
        gameState == old(gameState) &&
        finalGuess == old(finalGuess) && finalOpinion == old(finalOpinion) &&
        resultsData == old(resultsData)
      ensures server(questionId).Answered? ==>
        var h := Fallback(server(questionId).hivemindAverage);
        gameState == Results &&
        finalGuess == old(guessValue) && finalOpinion == old(opinionValue) &&
        resultsData == ResultsData(h, Score(old(guessValue), h))
      ensures server(questionId).Answered? && InRange(server(questionId).hivemindAverage) ==>
        0.0 <= resultsData.hivemind <= 100.0 && 0 <= resultsData.score <= 100
    {
      questionId := currentQuestionIndex;
      var response := server(questionId);
      if response.Failed? {
        return;
      }
      var hivemindResult := Fallback(response.hivemindAverage);
      var score := Score(guessValue, hivemindResult);
      if InRange(response.hivemindAverage) {
        FallbackInRange(response.hivemindAverage);
        ScoreBounds(guessValue, hivemindResult);
      }
      finalGuess := guessValue;
      finalOpinion := opinionValue;
      resultsData := ResultsData(hivemindResult, score);
      gameState := Results;
    }

    /** "Play Next Round": the next question, cyclically, and fresh sliders; the snapshots and the
        results stay as they were. */
    method HandlePlayAgain()
      requires Valid()
      modifies this
      ensures Valid()
      ensures currentQuestionIndex == NextIndex(old(currentQuestionIndex))
      ensures gameState == Guessing
      ensures guessValue == 50 && opinionValue == 50
      ensures finalGuess == old(finalGuess) && finalOpinion == old(finalOpinion)
      ensures resultsData == old(resultsData)
    {
      currentQuestionIndex := NextIndex(currentQuestionIndex);
      gameState := Guessing;
      guessValue := 50;
      opinionValue := 50;
    }

    /** The range input's `onChange`: the value goes to the slider of the current phase only, and
        the input then displays it. */
    method HandleSliderChange(value: int)
      requires Valid()
      requires OnSlider(value)
      modifies this
      ensures Valid()
      ensures SliderValue() == value
      ensures old(gameState) == Guessing ==>
        guessValue == value && opinionValue == old(opinionValue)
      ensures old(gameState) != Guessing ==>
        opinionValue == value && guessValue == old(guessValue)
      ensures gameState == old(gameState) && currentQuestionIndex == old(currentQuestionIndex)
      ensures finalGuess == old(finalGuess) && finalOpinion == old(finalOpinion)
      ensures resultsData == old(resultsData)
    {
      if gameState == Guessing {
        guessValue := value;
      } else {
        opinionValue := value;
      }
    }

    /** A click on the button the page shows: each phase moves to the next, except that a failed
        fetch keeps the opinion phase. Only "Play Next Round" resets the sliders, and only an
        answered "Submit Opinion" takes the snapshots and the results. */
    method PressButton(server: int -> FetchOutcome)
      requires Valid()
      modifies this
      ensures Valid()
      ensures gameState ==
        if old(gameState) == SubmittingOpinion && server(old(currentQuestionIndex)).Failed?
        then SubmittingOpinion
        else NextPhase(old(gameState))
      ensures currentQuestionIndex ==
        if old(gameState) == Results then NextIndex(old(currentQuestionIndex)) else old(currentQuestionIndex)
      ensures old(gameState) == Results ==> guessValue == 50 && opinionValue == 50
      ensures old(gameState) != Results ==>
        guessValue == old(guessValue) && opinionValue == old(opinionValue)
      ensures old(gameState) == SubmittingOpinion && server(old(currentQuestionIndex)).Answered? ==>
        var h := Fallback(server(old(currentQuestionIndex)).hivemindAverage);
        finalGuess == old(guessValue) && finalOpinion == old(opinionValue) &&
        resultsData == ResultsData(h, Score(old(guessValue), h))
      ensures !(old(gameState) == SubmittingOpinion && server(old(currentQuestionIndex)).Answered?) ==>
        finalGuess == old(finalGuess) && finalOpinion == old(finalOpinion) &&
        resultsData == old(resultsData)
    {
      match VisibleButton()
      case LockInGuess => HandleGuessSubmit();
      case SubmitOpinion => var _ := HandleOpinionSubmit(server);
      case PlayNextRound => HandlePlayAgain();
    }
  }
}
