/** The per-answer scoring heuristic: a placeholder evaluator that looks only
    at how long the answer is and returns one of three fixed assessments. */
module Scoring {
  import opened JsText

  /** The structured feedback for one answer. */
  datatype Assessment = Assessment(
    score: int,
    feedback: string,
    strengths: seq<string>,
    improvements: seq<string>)

  /** Answers shorter than this many UTF-16 code units are "brief". */
  const BriefLimit: nat := 20
  /** Answers shorter than this (and not brief) are "adequate"; the rest are
      "thorough". */
  const ThoroughFrom: nat := 100

  const Brief: Assessment := Assessment(
    60,
    "Your answer was quite brief. Consider providing more details and concrete examples to strengthen your response.",
    ["Concise communication"],
    ["Add specific examples", "Elaborate on your approach", "Connect to job requirements"])

  const Adequate: Assessment := Assessment(
    75,
    "You provided a good answer with some details. Including more specific examples and technical context would make it even stronger.",
    ["Clear explanation", "Logical structure"],
    ["Add more technical details", "Provide measurable outcomes"])

  const Thorough: Assessment := Assessment(
    90,
    "Excellent response with detailed examples and technical depth. Your answer demonstrates both knowledge and practical experience.",
    ["Comprehensive explanation", "Relevant examples", "Technical proficiency"],
    ["Consider mentioning alternative approaches"])

  /** Scores one answer. Total: the empty answer is simply brief. */
  function Assess(answer: string): (a: Assessment)
    ensures a == Brief || a == Adequate || a == Thorough
    ensures 0 <= a.score <= 100
    ensures answer == "" ==> a == Brief
  {
    if answer == "" || CodeUnits(answer) < BriefLimit then Brief
    else if CodeUnits(answer) < ThoroughFrom then Adequate
    else Thorough
  }

  /** The three bands, each stated as an if-and-only-if on the answer's
      length; the lower bound of each band is inclusive. */
  lemma AssessBands(answer: string)
    ensures Assess(answer).score == 60 <==> CodeUnits(answer) < 20
    ensures Assess(answer).score == 75 <==> 20 <= CodeUnits(answer) < 100
    ensures Assess(answer).score == 90 <==> 100 <= CodeUnits(answer)
    ensures Assess(answer).score == 60 ==>
      Assess(answer).strengths == ["Concise communication"] && |Assess(answer).improvements| == 3
    ensures Assess(answer).score == 75 ==>
      |Assess(answer).strengths| == 2 && |Assess(answer).improvements| == 2
    ensures Assess(answer).score == 90 ==>
      |Assess(answer).strengths| == 3 && |Assess(answer).improvements| == 1
  {
  }

  /** A 20-unit answer is adequate, not brief; a 100-unit answer is thorough,
      not adequate. */
  lemma BoundaryAnswersTakeTheHigherBand(a20: string, a100: string)
    requires CodeUnits(a20) == 20 && CodeUnits(a100) == 100
    ensures Assess(a20) == Adequate && Assess(a20).score == 75
    ensures Assess(a100) == Thorough && Assess(a100).score == 90
  {
  }

  /** A longer answer never scores lower. */
  lemma AssessMonotone(shorter: string, longer: string)
    requires CodeUnits(shorter) <= CodeUnits(longer)
    ensures Assess(shorter).score <= Assess(longer).score
  {
  }

  /** The assessment depends on the answer's length and nothing else, so
      scoring the same text twice gives identical results. */
  lemma AssessDependsOnlyOnLength(a: string, b: string)
    requires CodeUnits(a) == CodeUnits(b)
    ensures Assess(a) == Assess(b)
  {
  }

  /** Length is counted in UTF-16 code units: ten characters from outside the
      Basic Multilingual Plane (emoji, say) already make an adequate answer. */
  lemma AstralCharactersCountTwice(s: string)
    requires |s| == 10
    requires forall k :: 0 <= k < |s| ==> s[k] as int > 0xFFFF
    ensures CodeUnits(s) == 20
    ensures Assess(s) == Adequate
  {
    CodeUnitsOfAstralText(s);
  }
}
