/**
 * The sentiment classifier of emotion_analysis.py: a polarity score is
 * bucketed into one of three labels by two fixed thresholds, and empty
 * input is labelled neutral without consulting the scorer.
 *
 * The scorer (TextBlob) is not part of this model; it is a parameter
 * `polarityOf` that maps a text to its polarity as an exact real.
 */
module EmotionAnalysis {

  /** The three labels the classifier can produce. */
  datatype Emotion = Positive | Negative | Neutral {

    /** The label as the string written to the reply body and to both logs. */
    function Name(): (s: string)
      ensures s == "positive" || s == "negative" || s == "neutral"
      ensures Positive? <==> s == "positive"
      ensures Negative? <==> s == "negative"
    {
      match this
      case Positive => "positive"
      case Negative => "negative"
      case Neutral => "neutral"
    }

    /** Order of the labels along the polarity axis. */
    function Rank(): int
    {
      match this
      case Negative => -1
      case Neutral => 0
      case Positive => 1
    }
  }

  const PositiveThreshold: real := 0.2
  const NegativeThreshold: real := -0.2

  /** The threshold chain applied to a polarity score. */
  function ClassifyPolarity(polarity: real): (e: Emotion)
    ensures e == Positive <==> polarity > PositiveThreshold
    ensures e == Negative <==> polarity < NegativeThreshold
    ensures e == Neutral <==> NegativeThreshold <= polarity <= PositiveThreshold
  {
    if polarity > PositiveThreshold then Positive
    else if polarity < NegativeThreshold then Negative
    else Neutral
  }

  /** `analyze_emotion`: empty text is neutral whatever the scorer would say;
      any other text is classified by its polarity. */
  function AnalyzeEmotion(text: string, polarityOf: string -> real): (e: Emotion)
    ensures text == [] ==> e == Neutral
    ensures text != [] ==> (e == Positive <==> polarityOf(text) > 0.2)
    ensures text != [] ==> (e == Negative <==> polarityOf(text) < -0.2)
    ensures text != [] ==> (e == Neutral <==> -0.2 <= polarityOf(text) <= 0.2)
  {
    if text == [] then Neutral
    else ClassifyPolarity(polarityOf(text))
  }

  /** Raising the score never lowers the label. */
  lemma ClassifyMonotone(p: real, q: real)
    requires p <= q
    ensures ClassifyPolarity(p).Rank() <= ClassifyPolarity(q).Rank()
  {
  }

  /** The label strings identify the labels. */
  lemma NameInjective(a: Emotion, b: Emotion)
    ensures a.Name() == b.Name() <==> a == b
  {
  }

  /** The result for empty text does not depend on the scorer at all. */
  lemma EmptyTextIgnoresScorer(s1: string -> real, s2: string -> real)
    ensures AnalyzeEmotion("", s1) == AnalyzeEmotion("", s2) == Neutral
  {
  }
}
