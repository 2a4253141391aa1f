/** The results screen's computations: the overall score (the rounded mean
    of the per-answer scores), the ranked strengths and improvements, the
    narrative band, and the per-question detail with its fallbacks. */
module Results {
  import opened Optional
  import opened Scoring
  import opened Ranking

  /** The sum of the scores. */
  function SumScores(fs: seq<Assessment>): int {
    if fs == [] then 0 else fs[0].score + SumScores(fs[1..])
  }

  /** Every score lies in `lo..hi`. */
  predicate ScoresWithin(fs: seq<Assessment>, lo: int, hi: int) {
    forall k :: 0 <= k < |fs| ==> lo <= fs[k].score <= hi
  }

  /** The overall score, `Math.round(sum / count)`. With no feedback at all
      the screen divides zero by zero and shows "NaN"; that case is None.
      Otherwise the result is the mean rounded half up: the integer r with
      r - 1/2 <= mean < r + 1/2. */
  function OverallScore(fs: seq<Assessment>): (r: Option<int>)
    ensures r.None? <==> fs == []
    ensures r.Some? ==>
      2 * |fs| * r.value - |fs| <= 2 * SumScores(fs) < 2 * |fs| * r.value + |fs|
  {
    if fs == [] then None
    else
      var n := |fs|;
      var q := (2 * SumScores(fs) + n) / (2 * n);
      assert 2 * n * q <= 2 * SumScores(fs) + n < 2 * n * q + 2 * n by {
        DivBounds(2 * SumScores(fs) + n, 2 * n);
      }
      Some(q)
  }

  lemma DivBounds(a: int, d: int)
    requires d > 0
    ensures d * (a / d) <= a < d * (a / d) + d
  {
  }

  lemma {:induction false} SumWithin(fs: seq<Assessment>, lo: int, hi: int)
    requires ScoresWithin(fs, lo, hi)
    ensures |fs| * lo <= SumScores(fs) <= |fs| * hi
  {
    if fs != [] {
      var rest := fs[1..];
      assert ScoresWithin(rest, lo, hi) by {
        forall k | 0 <= k < |rest| ensures lo <= rest[k].score <= hi {
          assert rest[k] == fs[k + 1];
        }
      }
      SumWithin(rest, lo, hi);
      assert |fs| * lo == lo + |rest| * lo;
      assert |fs| * hi == hi + |rest| * hi;
    }
  }

  /** Multiplying by a natural number keeps a strict order at least `m`
      apart. */
  lemma MultiplyStep(m: nat, a: int, b: int)
    requires a < b
    ensures m * a + m <= m * b
  {
    MultiplyMonotone(m, 1, b - a);
    assert m * b - m * a == m * (b - a);
  }

  lemma MultiplyMonotone(n: nat, a: int, b: int)
    requires a <= b
    ensures n * a <= n * b
  {
  }

  lemma DoubleProduct(n: nat, x: int)
    ensures 2 * n * x == 2 * (n * x)
  {
  }

  /** When every score lies in `lo..hi`, so does the overall score: rounding
      the mean never leaves the range of the scores. */
  lemma OverallWithin(fs: seq<Assessment>, lo: int, hi: int)
    requires fs != [] && ScoresWithin(fs, lo, hi)
    ensures lo <= OverallScore(fs).value <= hi
  {
    var n := |fs|;
    var m := 2 * n;
    var r := OverallScore(fs).value;
    SumWithin(fs, lo, hi);
    DoubleProduct(n, lo);
    DoubleProduct(n, hi);
    if r > hi {
      MultiplyStep(m, hi, r);
    }
    if r < lo {
      MultiplyStep(m, r, lo);
    }
  }

  /** Every score the heuristic gives lies in 0..100, so the overall score of
      assessed answers does too. */
  lemma OverallOfAssessedAnswers(answers: seq<string>)
    requires answers != []
    ensures var fs := seq(|answers|, k requires 0 <= k < |answers| => Assess(answers[k]));
      0 <= OverallScore(fs).value <= 100
  {
    var fs := seq(|answers|, k requires 0 <= k < |answers| => Assess(answers[k]));
    OverallWithin(fs, 0, 100);
  }

  /** When every answer gets the same score, that is the overall score. */
  lemma UniformScoresGiveThatScore(fs: seq<Assessment>, v: int)
    requires fs != [] && ScoresWithin(fs, v, v)
    ensures OverallScore(fs) == Some(v)
  {
    OverallWithin(fs, v, v);
  }

  /** The narrative bands of the overall score. */
  datatype Band = Excellent | Good | NeedsPreparation

  /** The band of an overall score; each band's lower bound is inclusive. A
      missing score (NaN on screen) fails both comparisons and lands in the
      lowest band. */
  function BandOf(overall: Option<int>): (b: Band)
    ensures b == Excellent <==> overall.Some? && overall.value >= 85
    ensures b == Good <==> overall.Some? && 70 <= overall.value < 85
    ensures b == NeedsPreparation <==> overall.None? || overall.value < 70
  {
    if overall.Some? && overall.value >= 85 then Excellent
    else if overall.Some? && overall.value >= 70 then Good
    else NeedsPreparation
  }

  /** Bands ordered from lowest to highest. */
  function BandRank(b: Band): nat {
    match b
    case NeedsPreparation => 0
    case Good => 1
    case Excellent => 2
  }

  /** A higher overall score never lands in a lower band. */
  lemma BandMonotone(lower: int, higher: int)
    requires lower <= higher
    ensures BandRank(BandOf(Some(lower))) <= BandRank(BandOf(Some(higher)))
  {
  }

  /** The message shown for each band. */
  function Narrative(b: Band): string {
    match b
    case Excellent =>
      "Excellent job! Your interview responses demonstrate strong technical knowledge and effective communication. You're likely to make a positive impression on hiring managers."
    case Good =>
      "Good performance! Your responses show solid understanding of the role. With some targeted improvements, you can further increase your chances of success."
    case NeedsPreparation =>
      "You have a good foundation but need additional preparation. Focus on the improvement areas identified and consider practicing more interview scenarios."
  }

  /** Every strength of every feedback, in order. */
  function AllStrengths(fs: seq<Assessment>): (ls: seq<string>)
    ensures forall l :: l in ls <==> exists k :: 0 <= k < |fs| && l in fs[k].strengths
  {
    if fs == [] then [] else fs[0].strengths + AllStrengths(fs[1..])
  }

  /** Every improvement of every feedback, in order. */
  function AllImprovements(fs: seq<Assessment>): (ls: seq<string>)
    ensures forall l :: l in ls <==> exists k :: 0 <= k < |fs| && l in fs[k].improvements
  {
    if fs == [] then [] else fs[0].improvements + AllImprovements(fs[1..])
  }

  /** Flattening keeps order and repeats: one more feedback appends exactly
      its strengths, so the tally and the first-seen tie order see every
      strength in answer order. */
  lemma {:induction false} AllStrengthsSnoc(fs: seq<Assessment>, f: Assessment)
    ensures AllStrengths(fs + [f]) == AllStrengths(fs) + f.strengths
  {
    if fs == [] {
      assert [f][1..] == [];
    } else {
      assert (fs + [f])[1..] == fs[1..] + [f];
      AllStrengthsSnoc(fs[1..], f);
    }
  }

  /** Flattening keeps order and repeats: one more feedback appends exactly
      its improvements. */
  lemma {:induction false} AllImprovementsSnoc(fs: seq<Assessment>, f: Assessment)
    ensures AllImprovements(fs + [f]) == AllImprovements(fs) + f.improvements
  {
    if fs == [] {
      assert [f][1..] == [];
    } else {
      assert (fs + [f])[1..] == fs[1..] + [f];
      AllImprovementsSnoc(fs[1..], f);
    }
  }

  /** Each top strength was given by some answer's feedback, and no strength
      left out of the top list outranks one that was kept. */
  lemma TopStrengthsComeFromFeedback(fs: seq<Assessment>)
    ensures forall i :: 0 <= i < |Top(AllStrengths(fs))| ==>
      exists k :: 0 <= k < |fs| && Top(AllStrengths(fs))[i] in fs[k].strengths
    ensures forall l, i :: l in AllStrengths(fs) && l !in Top(AllStrengths(fs)) && 0 <= i < |Top(AllStrengths(fs))| ==>
      OutRanks(AllStrengths(fs), Top(AllStrengths(fs))[i], l)
  {
    var top := Top(AllStrengths(fs));
    forall i | 0 <= i < |top|
      ensures exists k :: 0 <= k < |fs| && top[i] in fs[k].strengths
    {
      TopOrdered(AllStrengths(fs));
      assert top[i] in AllStrengths(fs);
    }
    TopOmitsNothingMoreFrequent(AllStrengths(fs));
  }

  /** The same two facts for the improvement areas. */
  lemma TopImprovementsComeFromFeedback(fs: seq<Assessment>)
    ensures forall i :: 0 <= i < |Top(AllImprovements(fs))| ==>
      exists k :: 0 <= k < |fs| && Top(AllImprovements(fs))[i] in fs[k].improvements
    ensures forall l, i :: l in AllImprovements(fs) && l !in Top(AllImprovements(fs)) && 0 <= i < |Top(AllImprovements(fs))| ==>
      OutRanks(AllImprovements(fs), Top(AllImprovements(fs))[i], l)
  {
    var top := Top(AllImprovements(fs));
    forall i | 0 <= i < |top|
      ensures exists k :: 0 <= k < |fs| && top[i] in fs[k].improvements
    {
      TopOrdered(AllImprovements(fs));
      assert top[i] in AllImprovements(fs);
    }
    TopOmitsNothingMoreFrequent(AllImprovements(fs));
  }

  /** The text shown when an answer is empty or missing. */
  const NoAnswer: string := "No answer provided"

  /** The answer shown for question `i`: the answer itself, or the fallback
      text when it is empty or missing. Never empty. */
  function ShownAnswer(answers: seq<string>, i: nat): (a: string)
    ensures a != ""
    ensures i < |answers| && answers[i] != "" ==> a == answers[i]
    ensures i >= |answers| || answers[i] == "" ==> a == NoAnswer
  {
    if i < |answers| && answers[i] != "" then answers[i] else NoAnswer
  }

  /** The score shown for question `i`: its feedback's score, or 0 when the
      feedback is missing. */
  function ShownScore(fs: seq<Assessment>, i: nat): (n: int)
    ensures i < |fs| ==> n == fs[i].score
    ensures i >= |fs| ==> n == 0
  {
    if i < |fs| then fs[i].score else 0
  }

  /** What the question-by-question review shows for one question. */
  datatype QuestionDetail = QuestionDetail(
    question: string,
    answer: string,
    score: int,
    assessment: Option<Assessment>)

  /** One detail per question, in question order, however many answers and
      feedbacks were handed over. */
  function Details(questions: seq<string>, answers: seq<string>, fs: seq<Assessment>): (ds: seq<QuestionDetail>)
    ensures |ds| == |questions|
    ensures forall i :: 0 <= i < |ds| ==>
      && ds[i].question == questions[i]
      && ds[i].answer == ShownAnswer(answers, i)
      && ds[i].score == ShownScore(fs, i)
      && ds[i].assessment == (if i < |fs| then Some(fs[i]) else None)
  {
    seq(|questions|, i requires 0 <= i < |questions| =>
      QuestionDetail(questions[i], ShownAnswer(answers, i), ShownScore(fs, i),
        if i < |fs| then Some(fs[i]) else None))
  }

  /** Everything the results screen derives from a finished session. */
  datatype Report = Report(
    overall: Option<int>,
    band: Band,
    narrative: string,
    topStrengths: seq<string>,
    topImprovements: seq<string>,
    details: seq<QuestionDetail>)

  /** The results screen: overall score, its band and message, the top three
      strengths and improvements, and the per-question detail. */
  function Aggregate(questions: seq<string>, answers: seq<string>, fs: seq<Assessment>): (r: Report)
    ensures r.overall.None? <==> fs == []
    ensures r.narrative == Narrative(r.band) && r.band == BandOf(r.overall)
    ensures |r.topStrengths| == Min(TopCount, |LabelSet(AllStrengths(fs))|)
    ensures |r.topImprovements| == Min(TopCount, |LabelSet(AllImprovements(fs))|)
    ensures |r.details| == |questions|
  {
    var overall := OverallScore(fs);
    TopLength(AllStrengths(fs));
    TopLength(AllImprovements(fs));
    Report(overall, BandOf(overall), Narrative(BandOf(overall)),
      Top(AllStrengths(fs)), Top(AllImprovements(fs)), Details(questions, answers, fs))
  }

  /** The report's overall score is the rounded mean of the answers' scores,
      so every bound proved of OverallScore holds of it. */
  lemma AggregateScore(questions: seq<string>, answers: seq<string>, fs: seq<Assessment>)
    ensures Aggregate(questions, answers, fs).overall == OverallScore(fs)
  {
  }

  /** The report's top lists are the top three of every strength and of every
      improvement, taken over all the feedbacks in answer order. */
  lemma AggregateTops(questions: seq<string>, answers: seq<string>, fs: seq<Assessment>)
    ensures Aggregate(questions, answers, fs).topStrengths == Top(AllStrengths(fs))
    ensures Aggregate(questions, answers, fs).topImprovements == Top(AllImprovements(fs))
  {
  }

  /** The report's per-question items are the details of the session's
      questions, answers and feedbacks. */
  lemma AggregateDetails(questions: seq<string>, answers: seq<string>, fs: seq<Assessment>)
    ensures Aggregate(questions, answers, fs).details == Details(questions, answers, fs)
  {
  }
}
