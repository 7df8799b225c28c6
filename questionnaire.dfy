/**
  The questionnaire totals of the assessment page (app.py, `main`): one radio
  answer in 0..3 per question is appended to a response list, and the list is
  summed. The radio widget is a parameter: `answerTo(i)` is the option picked
  for question i.
 */
module Questionnaire {
  import opened Scoring

  /** The options of PHQ_OPTIONS: 0 "Not at all" up to 3 "Nearly every day". */
  type Answer = x: int | 0 <= x <= 3

  /** Number of questions in PHQ9_QUESTIONS and GAD7_QUESTIONS. */
  const Phq9Items := 9
  const Gad7Items := 7

  /** Python's `sum` over the responses. */
  function Sum(responses: seq<Answer>): int {
    if |responses| == 0 then 0
    else Sum(responses[..|responses| - 1]) + responses[|responses| - 1]
  }

  lemma {:induction false} SumBounds(responses: seq<Answer>)
    ensures 0 <= Sum(responses) <= 3 * |responses|
  {
    if |responses| > 0 {
      SumBounds(responses[..|responses| - 1]);
    }
  }

  /**
    One questionnaire: the loop over the questions appends each answer, in
    question order, then the responses are summed.
   */
  method Administer(items: nat, answerTo: nat -> Answer) returns (responses: seq<Answer>, total: int)
    ensures |responses| == items
    ensures forall i :: 0 <= i < items ==> responses[i] == answerTo(i)
    ensures total == Sum(responses) && 0 <= total <= 3 * items
  {
    responses := [];
    for i := 0 to items
      invariant |responses| == i
      invariant forall j :: 0 <= j < i ==> responses[j] == answerTo(j)
    {
      responses := responses + [answerTo(i)];
    }
    total := Sum(responses);
    SumBounds(responses);
  }

  /** The PHQ-9 section: a total in 0..27 and the level shown beside it. */
  method ScorePhq9(answerTo: nat -> Answer) returns (score: int, level: Severity)
    ensures 0 <= score <= Phq9Max
    ensures level == DepressionLevel(score)
    ensures score == Sum(seq(Phq9Items, i requires 0 <= i => answerTo(i)))
  {
    var responses;
    responses, score := Administer(Phq9Items, answerTo);
    assert responses == seq(Phq9Items, i requires 0 <= i => answerTo(i));
    level := DepressionLevel(score);
  }

  /** The GAD-7 section: a total in 0..21 and the level shown beside it. */
  method ScoreGad7(answerTo: nat -> Answer) returns (score: int, level: Severity)
    ensures 0 <= score <= Gad7Max
    ensures level == AnxietyLevel(score)
    ensures score == Sum(seq(Gad7Items, i requires 0 <= i => answerTo(i)))
  {
    var responses;
    responses, score := Administer(Gad7Items, answerTo);
    assert responses == seq(Gad7Items, i requires 0 <= i => answerTo(i));
    level := AnxietyLevel(score);
  }
}
