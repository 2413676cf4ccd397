/**
 * The rule-based reply table of response_generator.py: a label string is
 * mapped to one of three fixed replies, unknown strings to the listening one.
 */
module ResponseGenerator {

  import opened EmotionAnalysis

  const PositiveReply := "That's wonderful! I'm glad you're feeling so positive."
  const NegativeReply := "I hear you, and it's okay to feel down. Remember to take a moment for yourself."
  const ListeningReply := "Thank you for sharing your thoughts. I'm here to listen anytime."

  /** `generate_simple_response`, total over all strings. */
  function SimpleResponse(emotion: string): (reply: string)
    ensures emotion == "positive" ==> reply == PositiveReply
    ensures emotion == "negative" ==> reply == NegativeReply
    ensures emotion != "positive" && emotion != "negative" ==> reply == ListeningReply
  {
    if emotion == "positive" then PositiveReply
    else if emotion == "negative" then NegativeReply
    else ListeningReply
  }

  /** The three replies are pairwise distinct. */
  lemma RepliesDistinct()
    ensures PositiveReply != NegativeReply
    ensures PositiveReply != ListeningReply
    ensures NegativeReply != ListeningReply
  {
  }

  /** Two labels get the same reply exactly when they are the same label or
      both fall into the catch-all branch. */
  lemma SameReplyIffSameBranch(a: string, b: string)
    ensures SimpleResponse(a) == SimpleResponse(b) <==>
      (a == b || (a != "positive" && a != "negative" && b != "positive" && b != "negative"))
  {
    RepliesDistinct();
  }

  /** For the classifier's own labels, the table gives the reply of that label. */
  lemma ReplyForLabel(e: Emotion)
    ensures SimpleResponse(e.Name()) ==
      match e
      case Positive => PositiveReply
      case Negative => NegativeReply
      case Neutral => ListeningReply
  {
  }
}
