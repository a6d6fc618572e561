/** The quiz session of the App component: its state, the four events that
    change it, the option list shown for the current question and the choice
    of screen. */
module QuizSession {

  datatype Option<T> = None | Some(value: T)

  /** One trivia question as the provider delivers it. */
  datatype Question = Question(question: string, correct_answer: string, incorrect_answers: seq<string>)

  /** How the request for questions ended: a decoded response whose `results`
      field may be absent, or a transport or decoding failure. */
  datatype FetchOutcome = Received(results: Option<seq<Question>>) | Failed

  /** The coarse UI mode picked by the nested conditional of the render. */
  datatype Screen = Setup | Loading | Playing | Finished

  /** The session state held in the component's state hooks. */
  datatype Session = Session(
    questions: seq<Question>,
    loading: bool,
    currentQuestionIndex: nat,
    score: nat,
    quizStarted: bool,
    quizFinished: bool)

  /** The state the component is created with. */
  function Initial(): (s: Session)
    ensures s.questions == [] && s.score == 0 && s.currentQuestionIndex == 0
    ensures !s.loading && !s.quizStarted && !s.quizFinished
  {
    Session([], false, 0, 0, false, false)
  }

  /** The finished flag wins over everything; then a started quiz shows the
      spinner while loading and the question otherwise; else the setup form. */
  function ScreenOf(quizFinished: bool, quizStarted: bool, loading: bool): (r: Screen)
    ensures r == Finished <==> quizFinished
    ensures r == Loading <==> !quizFinished && quizStarted && loading
    ensures r == Playing <==> !quizFinished && quizStarted && !loading
    ensures r == Setup <==> !quizFinished && !quizStarted
  {
    if quizFinished then Finished
    else if quizStarted then (if loading then Loading else Playing)
    else Setup
  }

  function ScreenOfSession(s: Session): Screen {
    ScreenOf(s.quizFinished, s.quizStarted, s.loading)
  }

  /** The question at the index, when the index is inside the list. */
  function CurrentQuestion(questions: seq<Question>, i: nat): (r: Option<Question>)
    ensures r.Some? <==> i < |questions|
    ensures r.Some? ==> r.value == questions[i]
  {
    if i < |questions| then Some(questions[i]) else None
  }

  /** The options of one question: its incorrect answers in delivered order,
      then the correct answer; nothing is shuffled. */
  function Options(q: Question): (r: seq<string>)
    ensures |r| == |q.incorrect_answers| + 1
    ensures r[|r| - 1] == q.correct_answer
    ensures r[..|r| - 1] == q.incorrect_answers
    ensures q.correct_answer in r
  {
    q.incorrect_answers + [q.correct_answer]
  }

  /** The list the Playing screen offers: the options of the current question,
      or nothing when there is no current question. */
  function OptionsAt(questions: seq<Question>, i: nat): (r: seq<string>)
    ensures i >= |questions| ==> r == []
    ensures i < |questions| ==> r == Options(questions[i])
    ensures r != [] <==> i < |questions|
  {
    match CurrentQuestion(questions, i)
    case Some(q) => Options(q)
    case None => []
  }

  /** The answer scores when it equals the current question's correct answer
      character for character; with no current question nothing scores. */
  predicate IsCorrect(s: Session, answer: string) {
    match CurrentQuestion(s.questions, s.currentQuestionIndex)
    case Some(q) => answer == q.correct_answer
    case None => false
  }

  /** Pressing the start button sets quizStarted; when that flips it from
      false to true, the effect runs the fetch, whose first step sets loading. */
  function AfterStart(s: Session): (r: Session)
    ensures r.quizStarted
    ensures r.loading == (s.loading || !s.quizStarted)
    ensures r.questions == s.questions && r.currentQuestionIndex == s.currentQuestionIndex
    ensures r.score == s.score && r.quizFinished == s.quizFinished
  {
    if s.quizStarted then s
    else s.(quizStarted := true, loading := true)
  }

  /** The end of the fetch. A decoded response, whatever its results, resets
      index, score and the finished flag and keeps the results only when there
      is at least one; a failure empties the list and resets nothing. Loading
      ends either way. */
  function AfterFetch(s: Session, outcome: FetchOutcome): (r: Session)
    ensures !r.loading && r.quizStarted == s.quizStarted
    ensures outcome.Received? ==> r.currentQuestionIndex == 0 && r.score == 0 && !r.quizFinished
    ensures outcome.Received? && outcome.results.Some? && outcome.results.value != [] ==>
              r.questions == outcome.results.value
    ensures outcome.Received? && (outcome.results.None? || outcome.results.value == []) ==>
              r.questions == []
    ensures outcome.Failed? ==>
              r.questions == [] && r.currentQuestionIndex == s.currentQuestionIndex &&
              r.score == s.score && r.quizFinished == s.quizFinished
  {
    match outcome
    case Received(results) =>
      var qs := if results.Some? && |results.value| > 0 then results.value else [];
      s.(questions := qs, currentQuestionIndex := 0, score := 0, quizFinished := false, loading := false)
    case Failed =>
      s.(questions := [], loading := false)
  }

  /** Answering: one point for an exact match with the current question's
      correct answer; then either the next question, or the end of the quiz. */
  function AfterAnswer(s: Session, answer: string): (r: Session)
    ensures r.score == (if IsCorrect(s, answer) then s.score + 1 else s.score)
    ensures r.questions == s.questions && r.loading == s.loading
    ensures s.currentQuestionIndex + 1 < |s.questions| ==>
              r.currentQuestionIndex == s.currentQuestionIndex + 1 &&
              r.quizStarted == s.quizStarted && r.quizFinished == s.quizFinished
    ensures s.currentQuestionIndex + 1 >= |s.questions| ==>
              r.currentQuestionIndex == s.currentQuestionIndex && r.quizFinished && !r.quizStarted
    ensures s.currentQuestionIndex < |s.questions| ==> r.currentQuestionIndex < |r.questions|
    ensures r.quizFinished ==> !r.quizStarted || s.quizFinished
  {
    var score := if IsCorrect(s, answer) then s.score + 1 else s.score;
    if s.currentQuestionIndex + 1 < |s.questions| then
      s.(score := score, currentQuestionIndex := s.currentQuestionIndex + 1)
    else
      s.(score := score, quizFinished := true, quizStarted := false)
  }

  /** The restart button clears both flags and nothing else: score, index and
      questions survive until the next successful fetch. */
  function AfterRestart(s: Session): (r: Session)
    ensures !r.quizFinished && !r.quizStarted
    ensures r.questions == s.questions && r.currentQuestionIndex == s.currentQuestionIndex
    ensures r.score == s.score && r.loading == s.loading
  {
    s.(quizFinished := false, quizStarted := false)
  }

  /** The component itself: one mutable field per state hook, one method per
      event handler. */
  class QuizApp {
    var questions: seq<Question>
    var loading: bool
    var currentQuestionIndex: nat
    var score: nat
    var quizStarted: bool
    var quizFinished: bool

    function Snapshot(): Session
      reads this
    {
      Session(questions, loading, currentQuestionIndex, score, quizStarted, quizFinished)
    }

    constructor ()
      ensures Snapshot() == Initial()
    {
      questions := [];
      loading := false;
      currentQuestionIndex := 0;
      score := 0;
      quizStarted := false;
      quizFinished := false;
    }

    method Start()
      modifies this
      ensures Snapshot() == AfterStart(old(Snapshot()))
    {
      var wasStarted := quizStarted;
      quizStarted := true;
      if !wasStarted {
        loading := true;
      }
    }

    method CompleteFetch(outcome: FetchOutcome)
      modifies this
      ensures Snapshot() == AfterFetch(old(Snapshot()), outcome)
    {
      match outcome {
        case Received(results) =>
          if results.Some? && |results.value| > 0 {
            questions := results.value;
          } else {
            questions := [];
          }
          currentQuestionIndex := 0;
          score := 0;
          quizFinished := false;
        case Failed =>
          questions := [];
      }
      loading := false;
    }

    method HandleAnswer(answer: string)
      modifies this
      ensures Snapshot() == AfterAnswer(old(Snapshot()), answer)
    {
      if currentQuestionIndex < |questions| && answer == questions[currentQuestionIndex].correct_answer {
        score := score + 1;
      }
      if currentQuestionIndex + 1 < |questions| {
        currentQuestionIndex := currentQuestionIndex + 1;
      } else {
        quizFinished := true;
        quizStarted := false;
      }
    }

    method Restart()
      modifies this
      ensures Snapshot() == AfterRestart(old(Snapshot()))
    {
      quizFinished := false;
      quizStarted := false;
    }
  }
}
