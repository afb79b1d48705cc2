/**
 * The quiz state machine inside `MainWindow`, separated from its widgets:
 * the fields set up in `__init__` (app.py:33-39), `next_question`
 * (app.py:68-80) and `check_answer` (app.py:82-108), as functions from one
 * state to the next. The class in module QuizWindow runs these steps in place.
 */
module Quiz {
  import opened Wrappers
  import opened AnswerKey
  import opened Decimal
  import opened Results

  /**
   * The quiz fields of `MainWindow`. `enabled` stands for the input field and
   * the submit button, which `next_question` disables at the end (app.py:72-73).
   * Times are ticks of a clock the caller reads.
   */
  datatype Session = Session(
    answers: seq<char>,
    current: Option<char>,
    startTime: Option<int>,
    responseTimes: seq<Sample>,
    started: bool,
    enabled: bool)

  /** What a submit event leads to, in place of the labels and warning boxes. */
  datatype Outcome =
    | Started            // the first submit only asks the first question
    | NoQuestion         // no letter is being asked (app.py:89-90)
    | NotDecimal         // warning "enter a number" (app.py:96-99)
    | WrongAnswer        // warning "wrong, try again" (app.py:106-108)
    | IntLimitExceeded   // `int` raises ValueError (app.py:101); the slot fails
    | Accepted(elapsed: int)  // the time label shows `elapsed` (app.py:101-105)
    | InputDisabled      // the widgets are disabled; the event never arrives

  /** The state after a submit, what it signalled, and the chart if one was drawn. */
  datatype Transition = Transition(after: Session, outcome: Outcome, chart: Option<ResultsView>)

  /** The state right after `__init__`, `shuffled` being what `shuffle` left in `answers`. */
  function Initial(shuffled: seq<char>): Session {
    Session(shuffled, None, None, [], false, true)
  }

  /**
   * `next_question` at time `now`: with no letters left, draw the results and
   * disable input, keeping `current` as it is; otherwise pop the last letter,
   * ask it and stamp the start time.
   */
  function NextQuestionStep(s: Session, now: int): (Session, Option<ResultsView>) {
    if s.answers == [] then
      var (sorted, chart) := ResultGraph(s.responseTimes);
      (s.(responseTimes := sorted, enabled := false), chart)
    else
      var n := |s.answers|;
      (s.(answers := s.answers[..n - 1], current := Some(s.answers[n - 1]), startTime := Some(now)), None)
  }

  /**
   * What `check_answer` needs in order not to fail: the letter asked is a key
   * of `alpha2num` (app.py:93) and its start time is set (app.py:94).
   */
  predicate CanCheck(s: Session) {
    s.current.Some? ==> s.current.value in Alpha2Num() && s.startTime.Some?
  }

  /** `check_answer` with input text `input` submitted at time `now`. */
  function CheckAnswerStep(s: Session, input: string, now: int): Transition
    requires CanCheck(s)
  {
    if !s.started then
      var (asked, chart) := NextQuestionStep(s.(started := true), now);
      Transition(asked, Started, chart)
    else if s.current.None? then
      Transition(s, NoQuestion, None)
    else
      var letter := s.current.value;
      var correctAnswer := Alpha2Num()[letter];
      var elapsed := now - s.startTime.value;
      if !IsDecimal(input) then
        Transition(s, NotDecimal, None)
      else if !WithinIntDigitLimit(input) then
        Transition(s, IntLimitExceeded, None)
      else if DigitsValue(input) == correctAnswer then
        var recorded := s.(responseTimes := s.responseTimes + [Sample(letter, elapsed)]);
        var (asked, chart) := NextQuestionStep(recorded, now);
        Transition(asked, Accepted(elapsed), chart)
      else
        Transition(s, WrongAnswer, None)
  }

  /**
   * A submit as the widgets deliver it: the Enter key and the button are
   * connected to `check_answer` (app.py:55, 58) and do nothing once disabled.
   */
  function SubmitStep(s: Session, input: string, now: int): Transition
    requires CanCheck(s)
  {
    if !s.enabled then Transition(s, InputDisabled, None) else CheckAnswerStep(s, input, now)
  }

  /** The letter being asked, counted only while an answer is awaited. */
  function Awaited(s: Session): multiset<char> {
    if s.started && s.enabled && s.current.Some? then multiset{s.current.value} else multiset{}
  }

  /** Every letter is pending, being asked, or answered. */
  function Pool(s: Session): multiset<char> {
    multiset(s.answers) + multiset(LettersOf(s.responseTimes)) + Awaited(s)
  }

  /**
   * The session invariant: the 26 letters are shared out among `answers`,
   * the current question and `response_times`, each exactly once; before the
   * start nothing is asked or recorded; after the start a letter is always
   * set; once input is disabled nothing is pending and the samples are sorted.
   */
  ghost predicate Valid(s: Session) {
    && Pool(s) == multiset(Alphabet())
    && (!s.started ==> s.current.None? && s.startTime.None? && s.responseTimes == [] && s.enabled)
    && (s.started ==> s.current.Some? && s.startTime.Some? && IsLetter(s.current.value))
    && (!s.enabled ==> s.answers == [] && SortedByLetter(s.responseTimes))
  }

  lemma ValidCanCheck(s: Session)
    requires Valid(s)
    ensures CanCheck(s)
  {
    Alpha2NumIsAlphabetPosition();
  }

  /** A freshly shuffled quiz satisfies the invariant. */
  lemma InitialIsValid(shuffled: seq<char>)
    requires multiset(shuffled) == multiset(Alphabet())
    ensures Valid(Initial(shuffled))
  {
    assert LettersOf([]) == [];
  }

  /** Each letter of the alphabet occurs once in it. */
  lemma AlphabetOnce(c: char)
    ensures multiset(Alphabet())[c] == if IsLetter(c) then 1 else 0
  {
    AlphabetIsAscending();
    var a := Alphabet();
    if IsLetter(c) {
      var i := c as int - 'A' as int;
      assert a == a[..i] + [c] + a[i + 1..];
      assert c !in a[..i] && c !in a[i + 1..];
      assert multiset(a[..i])[c] == 0 && multiset(a[i + 1..])[c] == 0;
    } else {
      assert c !in a;
    }
  }

  /**
   * The first submit ignores its text: it sets `started`, pops the last of
   * the 26 shuffled letters into `current`, stamps the time and records
   * nothing (app.py:83-87, 76-80).
   */
  lemma FirstSubmitStarts(s: Session, input: string, now: int)
    requires Valid(s) && !s.started
    ensures CanCheck(s)
    ensures |s.answers| == 26
    ensures CheckAnswerStep(s, input, now) ==
      Transition(s.(answers := s.answers[..25], current := Some(s.answers[25]), startTime := Some(now), started := true),
                 Started, None)
  {
    assert LettersOf(s.responseTimes) == [];
    assert |multiset(s.answers)| == |multiset(Alphabet())|;
  }

  /**
   * Text that is not a decimal numeral, the empty text included, changes
   * nothing and brings the "enter a number" warning (app.py:96-99).
   */
  lemma NonDecimalChangesNothing(s: Session, input: string, now: int)
    requires Valid(s) && s.started && !IsDecimal(input)
    ensures CanCheck(s)
    ensures CheckAnswerStep(s, input, now) == Transition(s, NotDecimal, None)
  {
    ValidCanCheck(s);
  }

  /**
   * A numeral of the wrong value changes nothing and brings the "wrong,
   * try again" warning; the clock keeps running from the old start time
   * (app.py:101, 106-108).
   */
  lemma WrongNumberChangesNothing(s: Session, input: string, now: int)
    requires Valid(s) && s.started && IsDecimal(input) && WithinIntDigitLimit(input)
    requires DigitsValue(input) != s.current.value as int - 'A' as int + 1
    ensures CanCheck(s)
    ensures CheckAnswerStep(s, input, now) == Transition(s, WrongAnswer, None)
  {
    ValidCanCheck(s);
    Alpha2NumIsAlphabetPosition();
  }

  /**
   * A numeral longer than `int` reads, right or wrong, records nothing:
   * `int` raises at app.py:101 before any field is touched, and the
   * exception escapes the slot.
   */
  lemma OverlongNumeralChangesNothing(s: Session, input: string, now: int)
    requires Valid(s) && s.started && IsDecimal(input) && !WithinIntDigitLimit(input)
    ensures CanCheck(s)
    ensures CheckAnswerStep(s, input, now) == Transition(s, IntLimitExceeded, None)
  {
    ValidCanCheck(s);
  }

  /**
   * Once started, a submit is accepted exactly when its text is a numeral of
   * the letter's alphabet position that `int` can read, leading zeros
   * allowed (app.py:96, 101).
   */
  lemma AcceptedIffCorrect(s: Session, input: string, now: int)
    requires Valid(s) && s.started
    ensures CanCheck(s)
    ensures CheckAnswerStep(s, input, now).outcome.Accepted? <==>
      IsDecimal(input) && WithinIntDigitLimit(input) && DigitsValue(input) == s.current.value as int - 'A' as int + 1
  {
    ValidCanCheck(s);
    Alpha2NumIsAlphabetPosition();
  }

  /**
   * A correct answer records exactly one sample, the letter with the time
   * since it was asked, and then either asks the last pending letter or,
   * with none left, sorts the samples, draws the chart and disables input
   * while leaving `current` as it was (app.py:101-104, 69-80).
   */
  lemma CorrectAnswerAdvances(s: Session, input: string, now: int)
    requires Valid(s) && s.started
    requires IsDecimal(input) && WithinIntDigitLimit(input)
    requires DigitsValue(input) == s.current.value as int - 'A' as int + 1
    ensures CanCheck(s)
    ensures
      var t := CheckAnswerStep(s, input, now);
      var sample := Sample(s.current.value, now - s.startTime.value);
      && t.outcome == Accepted(now - s.startTime.value)
      && t.after.started
      && if s.answers != [] then
           var n := |s.answers|;
           t.after == s.(answers := s.answers[..n - 1], current := Some(s.answers[n - 1]),
                         startTime := Some(now), responseTimes := s.responseTimes + [sample])
           && t.chart == None
         else
           t.after == s.(responseTimes := SortByLetter(s.responseTimes + [sample]), enabled := false)
           && t.chart.Some?
           && IsSummaryOf(t.after.responseTimes, t.chart.value, s.responseTimes + [sample])
  {
    ValidCanCheck(s);
    Alpha2NumIsAlphabetPosition();
    assert Alpha2Num()[s.current.value] == DigitsValue(input);
    var sample := Sample(s.current.value, now - s.startTime.value);
    var recorded := s.(responseTimes := s.responseTimes + [sample]);
    assert CheckAnswerStep(s, input, now) ==
      Transition(NextQuestionStep(recorded, now).0, Accepted(now - s.startTime.value), NextQuestionStep(recorded, now).1);
    if s.answers == [] {
      ResultGraphIsSortedSummary(recorded.responseTimes);
    }
  }

  /** The number of submits still to be accepted: pending letters plus the one asked. */
  function Remaining(s: Session): nat {
    |s.answers| + if s.started && s.enabled then 1 else 0
  }

  lemma PopKeepsLetters(answers: seq<char>)
    requires answers != []
    ensures multiset(answers) == multiset(answers[..|answers| - 1]) + multiset{answers[|answers| - 1]}
  {
    assert answers == answers[..|answers| - 1] + [answers[|answers| - 1]];
  }

  lemma RecordKeepsLetters(samples: seq<Sample>, sample: Sample)
    ensures multiset(LettersOf(samples + [sample])) == multiset(LettersOf(samples)) + multiset{sample.letter}
  {
    assert LettersOf(samples + [sample]) == LettersOf(samples) + [sample.letter];
  }

  /** Under the invariant, the letters not yet accepted and those recorded make 26. */
  lemma RemainingPlusRecorded(s: Session)
    requires Valid(s)
    ensures Remaining(s) + |s.responseTimes| == 26
  {
    assert |Pool(s)| == |multiset(Alphabet())| == 26;
    assert |multiset(LettersOf(s.responseTimes))| == |s.responseTimes|;
  }

  /** Letters pending or answered, leaving out the one being asked. */
  function Settled(s: Session): multiset<char> {
    multiset(s.answers) + multiset(LettersOf(s.responseTimes))
  }

  /** Asking the next pending letter keeps the invariant. */
  lemma AskPreservesValid(s: Session, now: int)
    requires Settled(s) == multiset(Alphabet()) && s.answers != [] && s.started && s.enabled
    ensures Valid(NextQuestionStep(s, now).0)
  {
    var n := |s.answers|;
    var after := NextQuestionStep(s, now).0;
    PopKeepsLetters(s.answers);
    AlphabetOnce(s.answers[n - 1]);
    assert Pool(after) == Settled(s);
  }

  /** Drawing the results and disabling input keeps the invariant. */
  lemma FinishPreservesValid(s: Session, now: int)
    requires Settled(s) == multiset(Alphabet()) && s.answers == [] && s.started
    requires s.current.Some? && s.startTime.Some? && IsLetter(s.current.value)
    ensures Valid(NextQuestionStep(s, now).0)
  {
    var after := NextQuestionStep(s, now).0;
    SortByLetterPermutes(s.responseTimes);
    SortByLetterKeepsLettersAndTimes(s.responseTimes);
    assert Pool(after) == Settled(s);
  }

  /**
   * A submit while input is enabled keeps the invariant: the 26 letters stay
   * shared out among pending, asked and answered, each exactly once.
   */
  lemma CheckAnswerPreservesValid(s: Session, input: string, now: int)
    requires Valid(s) && s.enabled
    ensures CanCheck(s)
    ensures Valid(CheckAnswerStep(s, input, now).after)
  {
    ValidCanCheck(s);
    if !s.started {
      RemainingPlusRecorded(s);
      assert Settled(s.(started := true)) == Pool(s);
      AskPreservesValid(s.(started := true), now);
    } else if IsDecimal(input) && WithinIntDigitLimit(input) && DigitsValue(input) == Alpha2Num()[s.current.value] {
      AcceptPreservesValid(s, input, now);
    }
  }

  lemma AcceptPreservesValid(s: Session, input: string, now: int)
    requires Valid(s) && s.enabled && s.started
    requires s.current.value in Alpha2Num()
    requires IsDecimal(input) && WithinIntDigitLimit(input) && DigitsValue(input) == Alpha2Num()[s.current.value]
    ensures Valid(CheckAnswerStep(s, input, now).after)
  {
    var sample := Sample(s.current.value, now - s.startTime.value);
    var next := s.(responseTimes := s.responseTimes + [sample]);
    RecordKeepsLetters(s.responseTimes, sample);
    assert Settled(next) == Pool(s);
    assert CheckAnswerStep(s, input, now).after == NextQuestionStep(next, now).0;
    if s.answers != [] {
      AskPreservesValid(next, now);
    } else {
      FinishPreservesValid(next, now);
    }
  }

  /** A submit as the widgets deliver it keeps the invariant. */
  lemma SubmitPreservesValid(s: Session, input: string, now: int)
    requires Valid(s)
    ensures CanCheck(s)
    ensures Valid(SubmitStep(s, input, now).after)
  {
    ValidCanCheck(s);
    if s.enabled {
      CheckAnswerPreservesValid(s, input, now);
    }
  }

  /**
   * Each accepted submit records one sample and brings the quiz one letter
   * nearer its end; every other submit leaves the count where it was.
   */
  lemma {:induction false} SubmitProgress(s: Session, input: string, now: int)
    requires Valid(s) && s.started
    ensures CanCheck(s)
    ensures
      var t := SubmitStep(s, input, now);
      if t.outcome.Accepted? then
        |t.after.responseTimes| == |s.responseTimes| + 1 && Remaining(t.after) == Remaining(s) - 1
      else
        t.after == s
  {
    ValidCanCheck(s);
    var t := SubmitStep(s, input, now);
    if t.outcome.Accepted? {
      var sample := Sample(s.current.value, now - s.startTime.value);
      var recorded := s.responseTimes + [sample];
      if s.answers == [] {
        SortByLetterPermutes(recorded);
        assert |SortByLetter(recorded)| == |multiset(SortByLetter(recorded))| == |recorded|;
      }
    }
  }

  lemma {:induction false} MultisetCountsRepeat(t: seq<char>, i: nat, j: nat)
    requires i < j < |t| && t[i] == t[j]
    ensures multiset(t)[t[i]] >= 2
  {
    assert t == t[..j] + [t[j]] + t[j + 1..];
    assert t[i] in t[..j];
  }

  /**
   * No letter is recorded twice, and the letter being asked is neither
   * pending nor already recorded.
   */
  lemma NoLetterRecordedTwice(s: Session)
    requires Valid(s)
    ensures forall i, j :: 0 <= i < j < |s.responseTimes| ==> s.responseTimes[i].letter != s.responseTimes[j].letter
    ensures s.started && s.enabled ==>
      s.current.value !in s.answers && s.current.value !in LettersOf(s.responseTimes)
  {
    var letters := LettersOf(s.responseTimes);
    forall i, j | 0 <= i < j < |s.responseTimes|
      ensures s.responseTimes[i].letter != s.responseTimes[j].letter
    {
      if letters[i] == letters[j] {
        MultisetCountsRepeat(letters, i, j);
        AlphabetOnce(letters[i]);
        assert false;
      }
    }
    if s.started && s.enabled {
      var c := s.current.value;
      AlphabetOnce(c);
      assert Pool(s)[c] == multiset(s.answers)[c] + multiset(letters)[c] + 1;
    }
  }

  lemma AscendingTail(t: seq<char>)
    requires Ascending(t) && t != []
    ensures Ascending(t[1..])
  {
  }

  /** Two ascending arrangements of the same characters start alike. */
  lemma AscendingPermutationsHead(a: seq<char>, b: seq<char>)
    requires Ascending(a) && Ascending(b) && multiset(a) == multiset(b) && a != [] && b != []
    ensures a[0] == b[0]
  {
    assert a[0] in multiset(b);
    var k :| 0 <= k < |b| && b[k] == a[0];
    assert b[0] in multiset(a);
    var m :| 0 <= m < |a| && a[m] == b[0];
    assert b[0] <= b[k] && a[0] <= a[m];
  }

  lemma SameHeadSameTail(a: seq<char>, b: seq<char>)
    requires multiset(a) == multiset(b) && a != [] && b != [] && a[0] == b[0]
    ensures multiset(a[1..]) == multiset(b[1..])
  {
    assert a == [a[0]] + a[1..] && b == [b[0]] + b[1..];
    assert multiset(a[1..]) == multiset(a) - multiset{a[0]};
    assert multiset(b[1..]) == multiset(b) - multiset{b[0]};
  }

  /** Two ascending arrangements of the same characters are the same sequence. */
  lemma {:induction false} AscendingPermutationsEqual(a: seq<char>, b: seq<char>)
    requires Ascending(a) && Ascending(b) && multiset(a) == multiset(b)
    ensures a == b
  {
    assert |a| == |multiset(a)| == |multiset(b)| == |b|;
    if a != [] {
      AscendingPermutationsHead(a, b);
      SameHeadSameTail(a, b);
      AscendingTail(a);
      AscendingTail(b);
      AscendingPermutationsEqual(a[1..], b[1..]);
      assert a == [a[0]] + a[1..] && b == [b[0]] + b[1..];
    }
  }

  /**
   * Once input is disabled the quiz is complete: exactly 26 samples are
   * recorded, one per letter in order A..Z, and every later submit is
   * ignored (app.py:69-74).
   */
  lemma FinishedSessionIsComplete(s: Session)
    requires Valid(s) && !s.enabled
    ensures CanCheck(s)
    ensures |s.responseTimes| == 26 && LettersOf(s.responseTimes) == Alphabet()
    ensures forall input, now :: SubmitStep(s, input, now) == Transition(s, InputDisabled, None)
  {
    ValidCanCheck(s);
    AlphabetIsAscending();
    var letters := LettersOf(s.responseTimes);
    assert multiset(letters) == multiset(Alphabet());
    AscendingPermutationsEqual(letters, Alphabet());
  }

  /**
   * Why disabling input matters: `current` keeps the last letter after the
   * end, so a submit that reached `check_answer` then would be accepted and
   * record that letter a second time.
   */
  lemma LateCheckAnswerRecordsTwice(s: Session, now: int)
    requires Valid(s) && !s.enabled
    ensures CanCheck(s)
    ensures
      var t := CheckAnswerStep(s, ToDecimal(s.current.value as int - 'A' as int + 1), now);
      t.outcome.Accepted? && |t.after.responseTimes| == 27
  {
    ValidCanCheck(s);
    FinishedSessionIsComplete(s);
    var c := s.current.value;
    DigitsValueOfToDecimal(c as int - 'A' as int + 1);
    CorrectAnswerAdvances(s, ToDecimal(c as int - 'A' as int + 1), now);
    var recorded := s.responseTimes + [Sample(c, now - s.startTime.value)];
    SortByLetterPermutes(recorded);
    assert |SortByLetter(recorded)| == |multiset(recorded)| == 27;
  }

  /** The text a user who knows the key types for letter `c`. */
  function CorrectInput(c: char): string
    requires IsLetter(c)
  {
    ToDecimal(c as int - 'A' as int + 1)
  }

  /**
   * Keeps submitting the correct answer at time `now` until input is
   * disabled; whatever order the letters were shuffled in, the quiz then
   * ends with one sample per letter, sorted A..Z.
   */
  function AnswerAllCorrectly(s: Session, now: int): (r: Session)
    requires Valid(s) && s.started
    ensures Valid(r) && r.started && !r.enabled
    ensures |r.responseTimes| == 26 && LettersOf(r.responseTimes) == Alphabet()
    decreases Remaining(s)
  {
    if !s.enabled then
      FinishedSessionIsComplete(s);
      s
    else
      var input := CorrectInput(s.current.value);
      DigitsValueOfToDecimal(s.current.value as int - 'A' as int + 1);
      AcceptedIffCorrect(s, input, now);
      SubmitProgress(s, input, now);
      SubmitPreservesValid(s, input, now);
      AnswerAllCorrectly(SubmitStep(s, input, now).after, now)
  }

  /**
   * A whole session: the first submit at `t0` starts the quiz, then 26
   * correct answers finish it with the results drawn from 26 samples.
   */
  lemma WholeSessionCompletes(shuffled: seq<char>, first: string, t0: int, now: int)
    requires multiset(shuffled) == multiset(Alphabet())
    ensures CanCheck(Initial(shuffled))
    ensures Valid(CheckAnswerStep(Initial(shuffled), first, t0).after)
    ensures CheckAnswerStep(Initial(shuffled), first, t0).after.started
    ensures
      var r := AnswerAllCorrectly(CheckAnswerStep(Initial(shuffled), first, t0).after, now);
      !r.enabled && |r.responseTimes| == 26 && LettersOf(r.responseTimes) == Alphabet()
  {
    InitialIsValid(shuffled);
    ValidCanCheck(Initial(shuffled));
    CheckAnswerPreservesValid(Initial(shuffled), first, t0);
  }
}
