/**
 * `MainWindow` without its widgets: the object whose `next_question`,
 * `check_answer` and `show_result_graph` update its fields in place
 * (app.py:30-133). Each method is proved to perform the corresponding step
 * of module Quiz on the object's fields, and to keep the session invariant.
 */
module QuizWindow {
  import opened Wrappers
  import opened AnswerKey
  import opened Decimal
  import opened Results
  import opened Quiz

  class MainWindow {
    /** `alpha2num`, built once and never changed. */
    const alpha2num: map<char, int>
    /** The shuffled letters not yet asked; questions are popped from the end. */
    var answers: seq<char>
    var currentAlpha: Option<char>
    /** Clock reading when the current letter was asked. */
    var startTime: Option<int>
    var responseTimes: seq<Sample>
    var started: bool
    /** Whether the input field and submit button accept events. */
    var inputEnabled: bool

    /** The quiz fields as a value. */
    function Snapshot(): Session
      reads this
    {
      Session(answers, currentAlpha, startTime, responseTimes, started, inputEnabled)
    }

    ghost predicate Valid()
      reads this
    {
      alpha2num == Alpha2Num() && Quiz.Valid(Snapshot())
    }

    /**
     * `__init__`: the key, and `answers` as `shuffle` left the 26 keys, here
     * given by the caller as `shuffled` (app.py:33-39).
     */
    constructor (shuffled: seq<char>)
      requires multiset(shuffled) == multiset(Alphabet())
      ensures Valid() && Snapshot() == Initial(shuffled)
    {
      alpha2num := Alpha2Num();
      answers := shuffled;
      currentAlpha := None;
      startTime := None;
      responseTimes := [];
      started := false;
      inputEnabled := true;
      new;
      InitialIsValid(shuffled);
    }

    /**
     * The computing part of `show_result_graph`: sorts `response_times` in
     * place and returns what the chart is drawn from, or nothing when no
     * sample is recorded (app.py:110-116, 126).
     */
    method ShowResultGraph() returns (chart: Option<ResultsView>)
      modifies this`responseTimes
      ensures (responseTimes, chart) == ResultGraph(old(responseTimes))
    {
      if responseTimes == [] {
        return None;
      }
      responseTimes := SortByLetter(responseTimes);
      var letters := LettersOf(responseTimes);
      var times := TimesOf(responseTimes);
      chart := Some(ResultsView(letters, times, Mean(times)));
    }

    /**
     * `next_question` at clock reading `now`: with no letters left, show the
     * results and disable input; otherwise pop the last letter and ask it
     * (app.py:68-80).
     */
    method NextQuestion(now: int) returns (chart: Option<ResultsView>)
      modifies this
      ensures (Snapshot(), chart) == NextQuestionStep(old(Snapshot()), now)
    {
      if answers == [] {
        chart := ShowResultGraph();
        inputEnabled := false;
        return;
      }
      currentAlpha := Some(answers[|answers| - 1]);
      answers := answers[..|answers| - 1];
      startTime := Some(now);
      chart := None;
    }

    /**
     * `check_answer` for the text `input` submitted at clock reading `now`
     * (app.py:82-108). The widgets call it only while input is enabled.
     */
    method CheckAnswer(input: string, now: int) returns (outcome: Outcome, chart: Option<ResultsView>)
      requires Valid() && inputEnabled
      modifies this
      ensures Valid()
      ensures CanCheck(old(Snapshot()))
      ensures Transition(Snapshot(), outcome, chart) == CheckAnswerStep(old(Snapshot()), input, now)
    {
      ghost var before := Snapshot();
      ValidCanCheck(before);
      CheckAnswerPreservesValid(before, input, now);
      ghost var step := CheckAnswerStep(before, input, now);
      if !started {
        started := true;
        chart := NextQuestion(now);
        outcome := Started;
        assert Transition(Snapshot(), outcome, chart) == step;
        return;
      }
      if currentAlpha.None? {
        outcome, chart := NoQuestion, None;
        return;
      }
      var letter := currentAlpha.value;
      var correctAnswer := alpha2num[letter];
      var elapsed := now - startTime.value;
      if !IsDecimal(input) {
        outcome, chart := NotDecimal, None;
        assert Snapshot() == before;
        return;
      }
      if !WithinIntDigitLimit(input) {
        outcome, chart := IntLimitExceeded, None;
        assert Snapshot() == before;
        return;
      }
      if DigitsValue(input) == correctAnswer {
        responseTimes := responseTimes + [Sample(letter, elapsed)];
        chart := NextQuestion(now);
        outcome := Accepted(elapsed);
        assert Transition(Snapshot(), outcome, chart) == step;
      } else {
        outcome, chart := WrongAnswer, None;
        assert Snapshot() == before;
      }
    }

    /**
     * A press of Enter or of the submit button: it reaches `check_answer`
     * only while the widgets are enabled (app.py:55, 58, 72-73).
     */
    method Submit(input: string, now: int) returns (outcome: Outcome, chart: Option<ResultsView>)
      requires Valid()
      modifies this
      ensures Valid()
      ensures CanCheck(old(Snapshot()))
      ensures Transition(Snapshot(), outcome, chart) == SubmitStep(old(Snapshot()), input, now)
    {
      ValidCanCheck(Snapshot());
      if !inputEnabled {
        return InputDisabled, None;
      }
      outcome, chart := CheckAnswer(input, now);
    }
  }
}
