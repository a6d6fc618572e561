/** Runs of the quiz session: the events the user and the network deliver, the
    ones each screen makes possible, and what holds of every state a run from
    the initial state reaches. */
module QuizTraces {
  import opened QuizSession

  datatype Event = Start | FetchDone(outcome: FetchOutcome) | Choose(answer: string) | Restart

  /** What the rendered screen offers: the start button only on the setup form,
      an answer only among the listed options of the Playing screen, restart
      only on the Finished screen; a fetch completes only while one is loading. */
  predicate Enabled(s: Session, e: Event) {
    match e
    case Start => ScreenOfSession(s) == Setup
    case FetchDone(_) => s.loading
    case Choose(a) => ScreenOfSession(s) == Playing && a in OptionsAt(s.questions, s.currentQuestionIndex)
    case Restart => ScreenOfSession(s) == Finished
  }

  function Step(s: Session, e: Event): Session {
    match e
    case Start => AfterStart(s)
    case FetchDone(o) => AfterFetch(s, o)
    case Choose(a) => AfterAnswer(s, a)
    case Restart => AfterRestart(s)
  }

  /** An event the screen does not offer leaves the state as it is. */
  function Apply(s: Session, e: Event): Session {
    if Enabled(s, e) then Step(s, e) else s
  }

  /** Delivering an event to the component runs the handler the screen wires
      to it; an event the screen does not offer reaches no handler. */
  method Dispatch(app: QuizApp, e: Event)
    modifies app
    ensures app.Snapshot() == Apply(old(app.Snapshot()), e)
  {
    if Enabled(app.Snapshot(), e) {
      match e {
        case Start => app.Start();
        case FetchDone(o) => app.CompleteFetch(o);
        case Choose(a) => app.HandleAnswer(a);
        case Restart => app.Restart();
      }
    }
  }

  /** A run applies each event in turn. */
  function Run(s: Session, es: seq<Event>): Session
    decreases |es|
  {
    if es == [] then s else Run(Apply(s, es[0]), es[1..])
  }

  /** What every reachable state satisfies. */
  ghost predicate Inv(s: Session) {
    // the two screen flags are never both set
    !(s.quizStarted && s.quizFinished) &&
    // a fetch is in flight only inside a started quiz
    (s.loading ==> s.quizStarted) &&
    // the index stays inside a non-empty list
    (s.questions != [] ==> s.currentQuestionIndex < |s.questions|) &&
    // a finished quiz stopped at its last question
    (s.quizFinished ==> s.currentQuestionIndex == |s.questions| - 1) &&
    // at most one point per question reached
    s.score <= s.currentQuestionIndex + 1 &&
    // while questions are on show, one point at most per question already answered
    (s.quizStarted && !s.loading && s.questions != [] ==> s.score <= s.currentQuestionIndex)
  }

  lemma InitialInv()
    ensures Inv(Initial())
  {
  }

  lemma StepInv(s: Session, e: Event)
    requires Inv(s) && Enabled(s, e)
    ensures Inv(Step(s, e))
  {
  }

  lemma {:induction false} RunInv(s: Session, es: seq<Event>)
    requires Inv(s)
    ensures Inv(Run(s, es))
    decreases |es|
  {
    if es != [] {
      if Enabled(s, es[0]) {
        StepInv(s, es[0]);
      }
      RunInv(Apply(s, es[0]), es[1..]);
    }
  }

  lemma {:induction false} RunAppend(s: Session, a: seq<Event>, b: seq<Event>)
    ensures Run(s, a + b) == Run(Run(s, a), b)
    decreases |a|
  {
    if a == [] {
      assert a + b == b;
    } else {
      assert (a + b)[0] == a[0];
      assert (a + b)[1..] == a[1..] + b;
      RunAppend(Apply(s, a[0]), a[1..], b);
    }
  }

  /** In every reachable state the screen flags exclude each other, the index
      is inside a non-empty list, and the score does not pass its length. */
  lemma Reachable(es: seq<Event>)
    ensures var r := Run(Initial(), es);
      !(r.quizStarted && r.quizFinished) &&
      (r.questions != [] ==> r.currentQuestionIndex < |r.questions| && r.score <= |r.questions|)
  {
    InitialInv();
    RunInv(Initial(), es);
  }

  /** Each step moves the score by at most one; it rises exactly on an exact
      match with the current correct answer, and it falls only when a decoded
      response resets it. */
  lemma StepScore(s: Session, e: Event)
    ensures var r := Step(s, e);
      (r.score == s.score + 1 <==> e.Choose? && IsCorrect(s, e.answer)) &&
      (r.score < s.score ==> e.FetchDone? && e.outcome.Received? && r.score == 0) &&
      r.score <= s.score + 1
  {
  }

  /** The screen moves only Setup -> Loading -> Playing -> Finished -> Setup,
      besides staying on Playing from one question to the next. */
  predicate ScreenMove(a: Screen, b: Screen) {
    (a == Setup && b == Loading) || (a == Loading && b == Playing) ||
    (a == Playing && (b == Playing || b == Finished)) || (a == Finished && b == Setup)
  }

  lemma StepScreen(s: Session, e: Event)
    requires Inv(s) && Enabled(s, e)
    ensures ScreenMove(ScreenOfSession(s), ScreenOfSession(Step(s, e)))
  {
  }

  /** A failed or empty fetch leaves a Playing screen with no option and no
      button: no event the screen offers can move the session on. */
  lemma EmptyQuizIsStuck(s: Session, e: Event)
    requires ScreenOfSession(s) == Playing && s.questions == []
    ensures !Enabled(s, e)
  {
  }

  /** Number of answers equal, position by position, to the correct answer. */
  function Matches(qs: seq<Question>, answers: seq<string>): (r: nat)
    ensures r <= |answers| && r <= |qs|
    decreases |answers|
  {
    if answers == [] || qs == [] then 0
    else (if answers[0] == qs[0].correct_answer then 1 else 0) + Matches(qs[1..], answers[1..])
  }

  function CorrectAnswers(qs: seq<Question>): seq<string> {
    seq(|qs|, j requires 0 <= j < |qs| => qs[j].correct_answer)
  }

  function Choices(answers: seq<string>): seq<Event> {
    seq(|answers|, j requires 0 <= j < |answers| => Choose(answers[j]))
  }

  /** Playing from question i to the end, picking a listed option each time,
      finishes the quiz with one more point per exact match. */
  lemma {:induction false} AnswerToEnd(s: Session, answers: seq<string>)
    requires s.quizStarted && !s.loading && !s.quizFinished
    requires s.currentQuestionIndex < |s.questions|
    requires |answers| == |s.questions| - s.currentQuestionIndex
    requires forall j :: 0 <= j < |answers| ==>
               answers[j] in Options(s.questions[s.currentQuestionIndex + j])
    ensures var r := Run(s, Choices(answers));
      r.quizFinished && !r.quizStarted && r.questions == s.questions &&
      r.currentQuestionIndex == |s.questions| - 1 &&
      r.score == s.score + Matches(s.questions[s.currentQuestionIndex..], answers)
    decreases |answers|
  {
    var qs, i := s.questions, s.currentQuestionIndex;
    var es := Choices(answers);
    assert Enabled(s, es[0]);
    var t := AfterAnswer(s, answers[0]);
    assert Run(s, es) == Run(t, es[1..]);
    assert qs[i..][0] == qs[i] && qs[i..][1..] == qs[i + 1..];
    if i + 1 < |qs| {
      assert Choices(answers[1..]) == es[1..];
      AnswerToEnd(t, answers[1..]);
    } else {
      assert es[1..] == [];
      assert Matches(qs[i + 1..], answers[1..]) == 0;
    }
  }

  lemma {:induction false} AllCorrect(qs: seq<Question>)
    ensures Matches(qs, CorrectAnswers(qs)) == |qs|
    decreases |qs|
  {
    if qs != [] {
      assert CorrectAnswers(qs)[1..] == CorrectAnswers(qs[1..]);
      AllCorrect(qs[1..]);
    }
  }

  /** From the initial state: start, receive a non-empty list, answer every
      question with its correct answer; the quiz ends with full marks. */
  lemma PerfectQuiz(qs: seq<Question>)
    requires qs != []
    ensures var r := Run(Initial(), [Start, FetchDone(Received(Some(qs)))] + Choices(CorrectAnswers(qs)));
      r.quizFinished && !r.quizStarted && r.score == |qs| && r.questions == qs
  {
    var head := [Start, FetchDone(Received(Some(qs)))];
    RunAppend(Initial(), head, Choices(CorrectAnswers(qs)));
    var s := Run(Initial(), head);
    var s1 := Apply(Initial(), Start);
    assert s1 == Session([], true, 0, 0, true, false);
    var s2 := Apply(s1, head[1]);
    assert s2 == Session(qs, false, 0, 0, true, false);
    assert s == s2 by {
      calc {
        Run(Initial(), head);
        Run(s1, head[1..]);
        Run(s2, head[2..]);
        s2;
      }
    }
    var cs := CorrectAnswers(qs);
    assert |cs| == |qs| - s.currentQuestionIndex;
    forall j | 0 <= j < |cs| ensures cs[j] in Options(qs[j]) {
      assert cs[j] == qs[j].correct_answer;
    }
    AnswerToEnd(s, cs);
    assert qs[0..] == qs;
    AllCorrect(qs);
  }

  /** Restart keeps the score and the index, and a failed fetch after the next
      start keeps them too: the score can then exceed the (now empty) list. */
  lemma StaleScoreAfterFailedFetch(q: Question)
    ensures var r := Run(Initial(), [Start, FetchDone(Received(Some([q]))), Choose(q.correct_answer),
                                     Restart, Start, FetchDone(Failed)]);
      r.questions == [] && r.score == 1 && ScreenOfSession(r) == Playing
  {
    var es := [Start, FetchDone(Received(Some([q]))), Choose(q.correct_answer),
               Restart, Start, FetchDone(Failed)];
    var s1 := Apply(Initial(), es[0]);
    assert s1 == Session([], true, 0, 0, true, false);
    var s2 := Apply(s1, es[1]);
    assert s2 == Session([q], false, 0, 0, true, false);
    var s3 := Apply(s2, es[2]);
    assert s3 == Session([q], false, 0, 1, false, true);
    var s4 := Apply(s3, es[3]);
    assert s4 == Session([q], false, 0, 1, false, false);
    var s5 := Apply(s4, es[4]);
    assert s5 == Session([q], true, 0, 1, true, false);
    var s6 := Apply(s5, es[5]);
    assert s6 == Session([], false, 0, 1, true, false);
    calc {
      Run(Initial(), es);
      Run(s1, es[1..]);
      Run(s2, es[2..]);
      Run(s3, es[3..]);
      Run(s4, es[4..]);
      Run(s5, es[5..]);
      Run(s6, es[6..]);
      s6;
    }
  }
}
