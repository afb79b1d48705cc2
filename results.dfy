/**
 * The computing part of `show_result_graph` (app.py:110-116, 126): sort the
 * recorded samples by letter, split them into parallel `letters` and `times`
 * lists, and compute the mean line `sum(times) / len(times)`.
 */
module Results {
  import opened Wrappers

  /** One entry of `response_times`: the letter answered and the elapsed ticks. */
  datatype Sample = Sample(letter: char, elapsed: int)

  /** What the chart is drawn from: bar labels, bar heights and the mean line. */
  datatype ResultsView = ResultsView(letters: seq<char>, times: seq<int>, mean: real)

  /** `[alpha for alpha, _ in samples]` */
  function LettersOf(samples: seq<Sample>): seq<char> {
    seq(|samples|, i requires 0 <= i < |samples| => samples[i].letter)
  }

  /** `[t for _, t in samples]` */
  function TimesOf(samples: seq<Sample>): seq<int> {
    seq(|samples|, i requires 0 <= i < |samples| => samples[i].elapsed)
  }

  /** `sum(times)` */
  function Sum(times: seq<int>): int {
    if times == [] then 0 else times[0] + Sum(times[1..])
  }

  /** `sum(times) / len(times)`, in exact arithmetic. */
  function Mean(times: seq<int>): real
    requires |times| > 0
  {
    Sum(times) as real / |times| as real
  }

  /** Letters in ascending order, as the chart's x axis shows them. */
  predicate Ascending(t: seq<char>) {
    forall i, j :: 0 <= i < j < |t| ==> t[i] <= t[j]
  }

  predicate SortedByLetter(samples: seq<Sample>) {
    forall i, j :: 0 <= i < j < |samples| ==> samples[i].letter <= samples[j].letter
  }

  /**
   * Puts `x` after every sample whose letter is not greater than its own,
   * so that equal letters keep their recorded order.
   */
  function InsertByLetter(x: Sample, sorted: seq<Sample>): seq<Sample> {
    if sorted == [] then [x]
    else if x.letter < sorted[0].letter then [x] + sorted
    else [sorted[0]] + InsertByLetter(x, sorted[1..])
  }

  /** `samples.sort(key=lambda x: x[0])`: a stable sort by letter. */
  function SortByLetter(samples: seq<Sample>): seq<Sample> {
    if samples == [] then []
    else InsertByLetter(samples[|samples| - 1], SortByLetter(samples[..|samples| - 1]))
  }

  /** The result step: the sorted samples (kept in place) and the chart data. */
  function ResultGraph(samples: seq<Sample>): (seq<Sample>, Option<ResultsView>) {
    if samples == [] then (samples, None)
    else
      var sorted := SortByLetter(samples);
      (sorted, Some(ResultsView(LettersOf(sorted), TimesOf(sorted), Mean(TimesOf(sorted)))))
  }

  lemma {:induction false} InsertByLetterPermutes(x: Sample, sorted: seq<Sample>)
    ensures multiset(InsertByLetter(x, sorted)) == multiset(sorted) + multiset{x}
  {
    if sorted != [] && x.letter >= sorted[0].letter {
      InsertByLetterPermutes(x, sorted[1..]);
      assert sorted == [sorted[0]] + sorted[1..];
    }
  }

  /** Inserting keeps every letter at or above a common lower bound. */
  lemma {:induction false} InsertByLetterBounded(x: Sample, sorted: seq<Sample>, low: char)
    requires low <= x.letter
    requires forall i :: 0 <= i < |sorted| ==> low <= sorted[i].letter
    ensures forall i :: 0 <= i < |InsertByLetter(x, sorted)| ==> low <= InsertByLetter(x, sorted)[i].letter
  {
    if sorted != [] && x.letter >= sorted[0].letter {
      InsertByLetterBounded(x, sorted[1..], low);
    }
  }

  lemma {:induction false} InsertByLetterSorts(x: Sample, sorted: seq<Sample>)
    requires SortedByLetter(sorted)
    ensures SortedByLetter(InsertByLetter(x, sorted))
  {
    if sorted != [] && x.letter >= sorted[0].letter {
      var rest := sorted[1..];
      InsertByLetterSorts(x, rest);
      InsertByLetterBounded(x, rest, sorted[0].letter);
      assert InsertByLetter(x, sorted) == [sorted[0]] + InsertByLetter(x, rest);
    }
  }

  /** The sort yields the samples in ascending letter order, and nothing else. */
  lemma {:induction false} SortByLetterPermutes(samples: seq<Sample>)
    ensures SortedByLetter(SortByLetter(samples))
    ensures multiset(SortByLetter(samples)) == multiset(samples)
  {
    if samples != [] {
      var p := samples[..|samples| - 1];
      SortByLetterPermutes(p);
      InsertByLetterPermutes(samples[|samples| - 1], SortByLetter(p));
      InsertByLetterSorts(samples[|samples| - 1], SortByLetter(p));
      assert samples == p + [samples[|samples| - 1]];
    }
  }

  lemma {:induction false} SumAppend(a: seq<int>, b: seq<int>)
    ensures Sum(a + b) == Sum(a) + Sum(b)
  {
    if a == [] {
      assert a + b == b;
    } else {
      SumAppend(a[1..], b);
      assert (a + b)[1..] == a[1..] + b;
    }
  }

  lemma PrependLetterAndTime(x: Sample, rest: seq<Sample>)
    ensures LettersOf([x] + rest) == [x.letter] + LettersOf(rest)
    ensures TimesOf([x] + rest) == [x.elapsed] + TimesOf(rest)
  {
  }

  /** Sorting moves letters and times about but keeps both collections. */
  lemma {:induction false} InsertByLetterKeepsLettersAndTimes(x: Sample, sorted: seq<Sample>)
    ensures multiset(LettersOf(InsertByLetter(x, sorted))) == multiset(LettersOf(sorted)) + multiset{x.letter}
    ensures Sum(TimesOf(InsertByLetter(x, sorted))) == Sum(TimesOf(sorted)) + x.elapsed
  {
    if sorted == [] {
      assert LettersOf([x]) == [x.letter];
      assert TimesOf([x]) == [x.elapsed];
    } else if x.letter < sorted[0].letter {
      PrependLetterAndTime(x, sorted);
    } else {
      var rest := sorted[1..];
      InsertByLetterKeepsLettersAndTimes(x, rest);
      PrependLetterAndTime(sorted[0], InsertByLetter(x, rest));
      PrependLetterAndTime(sorted[0], rest);
      assert sorted == [sorted[0]] + rest;
    }
  }

  lemma {:induction false} SortByLetterKeepsLettersAndTimes(samples: seq<Sample>)
    ensures multiset(LettersOf(SortByLetter(samples))) == multiset(LettersOf(samples))
    ensures Sum(TimesOf(SortByLetter(samples))) == Sum(TimesOf(samples))
  {
    if samples != [] {
      var n := |samples|;
      var p := samples[..n - 1];
      SortByLetterKeepsLettersAndTimes(p);
      InsertByLetterKeepsLettersAndTimes(samples[n - 1], SortByLetter(p));
      assert LettersOf(samples) == LettersOf(p) + [samples[n - 1].letter];
      assert TimesOf(samples) == TimesOf(p) + [samples[n - 1].elapsed];
      SumAppend(TimesOf(p), [samples[n - 1].elapsed]);
    }
  }

  /**
   * With no samples the result step does nothing. Otherwise the letters come
   * out in ascending order, `times[i]` is the time recorded with `letters[i]`,
   * the (letter, time) pairs are exactly the recorded samples, and the mean is
   * the sum of the recorded times over their number.
   */
  lemma ResultGraphIsSortedSummary(samples: seq<Sample>)
    ensures samples == [] ==> ResultGraph(samples) == (samples, None)
    ensures samples != [] ==>
      && ResultGraph(samples).1.Some?
      && IsSummaryOf(ResultGraph(samples).0, ResultGraph(samples).1.value, samples)
  {
    if samples != [] {
      SortByLetterPermutes(samples);
      SortByLetterKeepsLettersAndTimes(samples);
      var sorted := SortByLetter(samples);
      assert |sorted| == |multiset(sorted)| == |samples|;
      var view := ResultGraph(samples).1.value;
      assert view == ResultsView(LettersOf(sorted), TimesOf(sorted), Mean(TimesOf(sorted)));
      var times := TimesOf(sorted);
      assert |times| == |samples| && Sum(times) == Sum(TimesOf(samples));
      assert view.mean == Mean(times);
      assert SortedByLetter(sorted);
      assert Ascending(view.letters);
      assert forall i :: 0 <= i < |sorted| ==> Sample(view.letters[i], view.times[i]) == sorted[i];
      assert IsSummaryOf(sorted, view, samples);
    }
  }

  /**
   * `sorted` is `samples` in ascending letter order, and `view` is drawn from
   * it: `times[i]` belongs to `letters[i]`, the mean is over all samples.
   */
  ghost predicate IsSummaryOf(sorted: seq<Sample>, view: ResultsView, samples: seq<Sample>) {
    && SortedByLetter(sorted)
    && multiset(sorted) == multiset(samples)
    && |view.letters| == |view.times| == |sorted|
    && Ascending(view.letters)
    && (forall i :: 0 <= i < |sorted| ==> Sample(view.letters[i], view.times[i]) == sorted[i])
    && |samples| > 0
    && view.mean == Sum(TimesOf(samples)) as real / |samples| as real
  }

  lemma {:induction false} SumBounds(times: seq<int>, lo: int, hi: int)
    requires forall i :: 0 <= i < |times| ==> lo <= times[i] <= hi
    ensures lo * |times| <= Sum(times) <= hi * |times|
  {
    if times != [] {
      SumBounds(times[1..], lo, hi);
    }
  }

  lemma DivideBounds(lo: real, hi: real, total: real, n: real)
    requires n > 0.0 && lo * n <= total <= hi * n
    ensures lo <= total / n <= hi
  {
  }

  /** The mean line lies within the range of the bars. */
  lemma MeanWithinBounds(times: seq<int>, lo: int, hi: int)
    requires |times| > 0
    requires forall i :: 0 <= i < |times| ==> lo <= times[i] <= hi
    ensures lo as real <= Mean(times) <= hi as real
  {
    var n := |times|;
    SumBounds(times, lo, hi);
    assert (lo * n) as real == lo as real * n as real;
    assert (hi * n) as real == hi as real * n as real;
    DivideBounds(lo as real, hi as real, Sum(times) as real, n as real);
  }
}
