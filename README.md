# Alphabet-to-number quiz: a Dafny model

The application asks the 26 letters A..Z in a shuffled order. For each one the
user must type its position in the alphabet (A = 1, ..., Z = 26). Correct
answers record how long they took. After the last letter, input is disabled
and a bar chart shows the time per letter, sorted by letter, with a line at
the mean time.

This project models the quiz logic of `MainWindow` in `app.py` without its
PyQt widgets:

- `answer_key.dfy` (module `AnswerKey`): the `alpha2num` dictionary, built
  by enumerating the alphabet string from 1.
- `decimal.dfy` (module `Decimal`): the input checks `str.isdecimal()` and
  `int(...)`, for ASCII digits, with the 4300-digit limit of CPython's `int`
  (the default of `sys.get_int_max_str_digits()`).
- `results.dfy` (module `Results`): the computing part of
  `show_result_graph`. It sorts the `(letter, elapsed)` samples by letter,
  splits them into the parallel `letters` and `times` lists, and computes
  the mean `sum(times) / len(times)`.
- `quiz.dfy` (module `Quiz`): the quiz fields as a value (`Session`),
  `next_question` and `check_answer` as step functions, the session
  invariant, and lemmas about single steps and whole sessions.
- `quiz_window.dfy` (module `QuizWindow`): class `MainWindow`, whose fields
  the methods update in place as the Python object does. Each method is
  proved to perform the matching step of module `Quiz`, and `CheckAnswer`
  and `Submit` are proved to keep the invariant.

The model works as follows:

- The shuffled order is a constructor argument. It must be a permutation of
  the 26 letters, which is what `shuffle` produces.
- The clock is a tick count `now` that the caller passes in. The elapsed
  time of an answer is `now` minus the tick count recorded when the letter
  was asked.
- The input field and submit button are one flag, `inputEnabled`. `Submit`
  models a press of Enter or of the button. It reaches `check_answer` only
  while that flag is set.
- The warning dialogs and label updates are `Outcome` values: `Started`,
  `NotDecimal`, `WrongAnswer`, `Accepted(elapsed)`, `NoQuestion` and
  `InputDisabled`. `IntLimitExceeded` stands for the ValueError that `int`
  raises at app.py:101 on a numeral of more than 4300 digits (leading zeros
  count). No field has been changed when it is raised.

The session invariant (`Quiz.Valid`) says how the 26 letters are split up.
Each letter is in exactly one place: the pending `answers`, the letter being
asked (only while input is enabled), or the letters in `response_times`.
Once input is disabled, nothing is pending and the samples are sorted.

Three points about how the code behaves, which the model follows:

- At the end of the quiz the code does not clear `current_alpha`. It keeps
  the last letter asked, and only the disabled widgets signal the end.
  `Quiz.LateCheckAnswerRecordsTwice` shows why disabling input matters: a
  `check_answer` that still reached the object after the end would accept
  the last letter again and record a 27th sample.
- `check_answer` itself does not ignore late submits. Only the disabled
  widgets stop them, and `Submit` models that.
- The clock is `time()`, a wall clock, not a monotonic one. So the model
  does not claim that elapsed times are non-negative.

## Model

| member | source | states |
|---|---|---|
| `AnswerKey.KeyFromEnumerates` | app.py:33 | a dict comprehension over `enumerate(s, start)` of a string with no repeated characters has exactly the characters of `s` as keys and maps the i-th character to `start + i` |
| `AnswerKey.Alpha2NumIsAlphabetPosition` | app.py:33 | `alpha2num` has exactly the 26 upper-case letters as keys and maps each letter to its alphabet position: the i-th character of the alphabet string maps to i + 1 |
| `AnswerKey.Alpha2NumIsBijection` | app.py:33 | `alpha2num` is injective, and its values are exactly 1..26 |
| `AnswerKey.AlphabetIsLiteral` | app.py:33 | the alphabet the model enumerates is the string literal "ABCDEFGHIJKLMNOPQRSTUVWXYZ" |
| `AnswerKey.AlphabetIsAscending` | app.py:33 | the alphabet string holds 26 distinct upper-case letters in ascending order, every upper-case letter among them |
| `Decimal.ToDecimal` | app.py:96-101 | `str(n)` of a natural number passes `isdecimal()` and has no leading zero; below 100 it has at most two digits, so `int` reads it back |
| `Decimal.DigitsValueOfToDecimal` | app.py:101 | `int(str(n)) == n` for every natural number n: `int` inverts `str` |
| `Decimal.LeadingZeroIgnored` | app.py:96-101 | a leading zero keeps the text all digits and does not change its `int` value, so "01" is read as 1 |
| `Results.InsertByLetterPermutes` | app.py:114 | inserting one sample into the sorted list adds exactly that sample to the list's multiset |
| `Results.InsertByLetterBounded` | app.py:114 | inserting keeps every letter at or above a lower bound that the inserted letter and the list both respect |
| `Results.InsertByLetterSorts` | app.py:114 | inserting into a list sorted by letter gives a list sorted by letter |
| `Results.SortByLetterPermutes` | app.py:114 | `response_times.sort(key=letter)` gives a list sorted by letter that is a permutation of the samples |
| `Results.SumAppend` | app.py:126 | `sum(a + b) == sum(a) + sum(b)` |
| `Results.InsertByLetterKeepsLettersAndTimes` | app.py:114-116 | inserting one sample adds its letter to the multiset of letters and its time to the sum of times |
| `Results.SortByLetterKeepsLettersAndTimes` | app.py:114-116 | sorting keeps the multiset of letters and the sum of the times |
| `Results.ResultGraphIsSortedSummary` | app.py:110-126 | with no samples the result step changes nothing and draws nothing. Otherwise the stored list becomes a sorted permutation of the samples; `letters` ascend; `times[i]` is the time recorded with `letters[i]`; both lists have one entry per sample; the mean is the sum of the recorded times over their count |
| `Results.SumBounds` | app.py:126 | if every time lies between lo and hi, `sum(times)` lies between lo·len and hi·len |
| `Results.DivideBounds` | app.py:126 | dividing a total bounded by lo·n and hi·n by n > 0 gives a value between lo and hi |
| `Results.MeanWithinBounds` | app.py:126 | the mean line `sum(times)/len(times)` lies between the smallest and largest bar |
| `Quiz.ValidCanCheck` | app.py:89-94 | under the invariant, the letter being asked is a key of `alpha2num` and has a start time, so the lookup and the subtraction in `check_answer` cannot fail |
| `Quiz.InitialIsValid` | app.py:33-39 | the state after `__init__` with any permutation of the letters satisfies the invariant |
| `Quiz.AlphabetOnce` | app.py:33-35 | each upper-case letter occurs exactly once among the keys that are shuffled, and no other character occurs |
| `Quiz.FirstSubmitStarts` | app.py:83-87 | the first submit ignores its text. It sets `started`, pops the last of the 26 shuffled letters into `current_alpha`, stamps the start time and records nothing |
| `Quiz.NonDecimalChangesNothing` | app.py:96-99 | once started, text that is not decimal, the empty text included, leaves `answers`, `current_alpha`, `start_time` and `response_times` unchanged and gives the "enter a number" warning |
| `Quiz.WrongNumberChangesNothing` | app.py:101-108 | a numeral of at most 4300 digits whose value differs from the letter's position leaves the state unchanged, start time included, and gives the "wrong" warning |
| `Quiz.OverlongNumeralChangesNothing` | app.py:96-101 | a numeral of more than 4300 digits, right or wrong, makes `int` raise: the outcome is `IntLimitExceeded` and no field has changed |
| `Quiz.AcceptedIffCorrect` | app.py:96-101 | once started, a submit is accepted if and only if its text is decimal, has at most 4300 digits, and its `int` value is the asked letter's position |
| `Quiz.CorrectAnswerAdvances` | app.py:101-104 | a correct answer that `int` can read (at most 4300 digits) appends exactly one `(current_alpha, now - start_time)` sample. It then pops the last pending letter and stamps `now`. With nothing pending it instead sorts the samples, returns the chart, disables input and keeps `current_alpha` |
| `Quiz.PopKeepsLetters` | app.py:76 | popping the last element of `answers` keeps the multiset of letters, split into the rest and the popped letter |
| `Quiz.RecordKeepsLetters` | app.py:102 | appending a sample adds exactly its letter to the recorded letters |
| `Quiz.RemainingPlusRecorded` | app.py:34-35 | under the invariant, the letters still to be answered plus the samples recorded number 26 |
| `Quiz.AskPreservesValid` | app.py:76-80 | asking the next letter keeps every letter in exactly one of pending, asked and recorded |
| `Quiz.FinishPreservesValid` | app.py:69-74 | drawing the results and disabling input keeps the invariant and leaves the samples sorted |
| `Quiz.CheckAnswerPreservesValid` | app.py:82-108 | every `check_answer` while input is enabled keeps the invariant: the 26 letters stay split among pending, asked and answered, each exactly once |
| `Quiz.AcceptPreservesValid` | app.py:101-104 | an accepted answer keeps the invariant |
| `Quiz.SubmitPreservesValid` | app.py:55-58 | every press of Enter or of the button keeps the invariant |
| `Quiz.SubmitProgress` | app.py:82-108 | an accepted submit records exactly one more sample and leaves one letter fewer to answer. Every other submit leaves the state unchanged |
| `Quiz.MultisetCountsRepeat` | app.py:102 | a letter at two positions of a list occurs at least twice in its multiset |
| `Quiz.NoLetterRecordedTwice` | app.py:76-102 | no letter is recorded twice, and while an answer is awaited the asked letter is neither pending nor recorded |
| `Quiz.AscendingTail` | app.py:114 | the tail of an ascending letter list is ascending |
| `Quiz.AscendingPermutationsHead` | app.py:114 | two ascending arrangements of the same letters start with the same letter |
| `Quiz.SameHeadSameTail` | app.py:114 | two permutations of each other that start alike have tails that are permutations of each other |
| `Quiz.AscendingPermutationsEqual` | app.py:114 | two ascending arrangements of the same letters are equal |
| `Quiz.FinishedSessionIsComplete` | app.py:68-74 | once input is disabled, exactly 26 samples are recorded, their letters are A..Z in order, and every later submit is ignored |
| `Quiz.LateCheckAnswerRecordsTwice` | app.py:82-104 | after the end, `check_answer` called directly with the last letter's number would accept it and record a 27th sample, because `current_alpha` is not cleared |
| `Quiz.AnswerAllCorrectly` | app.py:82-108 | answering every letter correctly, from any valid started state, ends with input disabled and one sample per letter, sorted A..Z |
| `Quiz.WholeSessionCompletes` | app.py:33-108 | from any shuffle, the first submit and then 26 correct answers finish the quiz with 26 samples whose letters are A..Z |
| `QuizWindow.MainWindow.constructor` | app.py:31-39 | the new object holds `alpha2num`, the shuffled letters, no current letter, no start time, no samples, not started, input enabled; the invariant holds |
| `QuizWindow.MainWindow.ShowResultGraph` | app.py:110-126 | sorts `response_times` in place and returns the chart data, or changes nothing and returns none when no sample is recorded, as `Results.ResultGraph` |
| `QuizWindow.MainWindow.NextQuestion` | app.py:68-80 | updates the fields as `Quiz.NextQuestionStep`: pop and ask the last pending letter, or show the results and disable input |
| `QuizWindow.MainWindow.CheckAnswer` | app.py:82-108 | updates the fields and returns the outcome as `Quiz.CheckAnswerStep`, and keeps the invariant |
| `QuizWindow.MainWindow.Submit` | app.py:55-58 | ignores the event while input is disabled, otherwise runs `CheckAnswer`; keeps the invariant |

## Left out

- PyQt widgets, layout, fonts, window title, label texts, placeholder text, focus, clear and select-all calls (app.py:44-66, 77-79, 84, 98, 103, 105, 108). The input field's state is the one flag `inputEnabled`. Label updates are `Outcome` values.
- `QMessageBox.warning` dialogs (app.py:97, 107). They become the `NotDecimal` and `WrongAnswer` outcomes. Blocking modality is not modelled.
- Matplotlib canvas creation, bar drawing, the axis line, axis styling and widget replacement (app.py:23-28, 118-133). `show_result_graph` returns the data it would draw as a `ResultsView`.
- `random.shuffle` (app.py:35). The shuffled order is a constructor argument required to be a permutation of the 26 letters. The model says nothing about how likely each order is.
- `time()` (app.py:80, 94). The clock is a tick count `now` passed by the caller. One submit uses a single reading both for the elapsed time and for the next start stamp, where the source reads the clock twice. Elapsed values are integers, not floats, and the `:.3f` formatting (app.py:103) is not modelled.
- `Results.MeanWithinBounds`, `Results.ResultGraphIsSortedSummary`: the mean is exact rational arithmetic, not floating-point division.
- `Decimal.DigitsValueOfToDecimal`, `Quiz.AcceptedIffCorrect`: `isdecimal()` and `int()` are modelled for the ASCII digits '0'..'9' only. Python also accepts other Unicode decimal digits.
- The sort is modelled as a function, a stable insertion sort by letter, assigned back to the field. Python's built-in sort is also stable. Which algorithm it uses is not modelled, only its result.
- The `current_alpha is None` return (app.py:89-90) is modelled, but the invariant makes it unreachable once the quiz has started.
- After `IntLimitExceeded` the ValueError leaves the slot, and PyQt6 then aborts the process. The model returns the outcome with the state unchanged and does not model the end of the process.
- The `__main__` bootstrap and the event loop (app.py:136-140).
