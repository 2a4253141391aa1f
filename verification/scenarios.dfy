/** A worked interview: a whole session from opening to the results screen. */
module Scenarios {
  import opened JsText
  import opened Scoring
  import opened QuestionBank
  import opened Session
  import opened SessionRuns
  import opened Results
  import opened Optional

  /** Answer lengths, in UTF-16 code units, that fall in the short, middle,
      long, short and long bands. */
  const SampleLengths: seq<nat> := [10, 50, 150, 10, 150]

  /** The scores those lengths earn. */
  const SampleScores: seq<int> := [60, 75, 90, 60, 90]

  lemma SampleAnswersScore(answers: seq<string>)
    requires |answers| == QuestionCount
    requires forall k :: 0 <= k < |answers| ==> CodeUnits(answers[k]) == SampleLengths[k]
    ensures forall k :: 0 <= k < |answers| ==> Assess(answers[k]).score == SampleScores[k]
  {
    forall k | 0 <= k < |answers|
      ensures Assess(answers[k]).score == SampleScores[k]
    {
      AssessBands(answers[k]);
    }
  }

  lemma SampleOverall(fs: seq<Assessment>)
    requires |fs| == QuestionCount
    requires forall k :: 0 <= k < |fs| ==> fs[k].score == SampleScores[k]
    ensures OverallScore(fs) == Some(75)
  {
    assert SumScores(fs[4..]) == 90;
    assert SumScores(fs[3..]) == 150;
    assert SumScores(fs[2..]) == 240;
    assert SumScores(fs[1..]) == 315;
    assert SumScores(fs) == 375;
  }

  /** A session answered with five non-blank answers of the sample lengths
      reaches the results screen with scores 60, 75, 90, 60 and 90, an overall
      score of 75 and the middle narrative band. */
  lemma SampleInterview(role: Option<string>, dictation: bool, script: seq<string>)
    requires |script| == QuestionCount
    requires AllNonBlank(script)
    requires forall k :: 0 <= k < |script| ==> CodeUnits(script[k]) == SampleLengths[k]
    ensures Run(Start(role, dictation), script).Success?
    ensures Run(Start(role, dictation), script).value.Finished?
    ensures var h := Run(Start(role, dictation), script).value.handoff;
      && |h.feedbacks| == QuestionCount
      && (forall k :: 0 <= k < QuestionCount ==> h.feedbacks[k].score == SampleScores[k])
      && Aggregate(h.questions, h.answers, h.feedbacks).overall == Some(75)
      && Aggregate(h.questions, h.answers, h.feedbacks).band == Good
  {
    FiveRoundsCompleteTheInterview(role, dictation, script);
    var h := Run(Start(role, dictation), script).value.handoff;
    SampleAnswersScore(script);
    assert forall k :: 0 <= k < QuestionCount ==> h.feedbacks[k].score == SampleScores[k];
    SampleOverall(h.feedbacks);
    var report := Aggregate(h.questions, h.answers, h.feedbacks);
    assert report.overall == OverallScore(h.feedbacks);
  }
}
