/** `detect_emotion`: a deterministic keyword tagger.  A sad word in the lower-cased text
    gives "empathetic"; otherwise a happy word gives "cheerful"; otherwise "neutral". */
module Emotion {
  import opened Text

  const SadWords: seq<string> := ["sad", "upset", "tired"]
  const HappyWords: seq<string> := ["happy", "excited", "great"]

  /** `any(word in text.lower() for word in SadWords)`. */
  predicate MentionsSad(text: string) {
    ContainsAny(Lower(text), SadWords)
  }

  /** `any(word in text.lower() for word in HappyWords)`. */
  predicate MentionsHappy(text: string) {
    ContainsAny(Lower(text), HappyWords)
  }

  /** `detect_emotion`: "empathetic" exactly when a sad word occurs, whatever else does;
      "cheerful" exactly when a happy word and no sad word occurs; "neutral" otherwise. */
  function DetectEmotion(text: string): (tag: string)
    ensures tag in {"empathetic", "cheerful", "neutral"}
    ensures tag == "empathetic" <==> MentionsSad(text)
    ensures tag == "cheerful" <==> !MentionsSad(text) && MentionsHappy(text)
  {
    if MentionsSad(text) then "empathetic"
    else if MentionsHappy(text) then "cheerful"
    else "neutral"
  }

  /** The sad-word test comes first: a sad word written in any case, anywhere in the text,
      gives "empathetic" even when happy words occur too. */
  lemma SadWordWins(text: string, k: nat, i: nat)
    requires k < |SadWords|
    requires i + |SadWords[k]| <= |text|
    requires Lower(text[i..i + |SadWords[k]|]) == SadWords[k]
    ensures DetectEmotion(text) == "empathetic"
  {
    ContainsIgnoringCase(text, SadWords[k], i);
    assert MentionsSad(text);
  }

  /** A happy word written in any case, with no sad word anywhere, gives "cheerful". */
  lemma HappyWordWithoutSadIsCheerful(text: string, k: nat, i: nat)
    requires k < |HappyWords|
    requires i + |HappyWords[k]| <= |text|
    requires Lower(text[i..i + |HappyWords[k]|]) == HappyWords[k]
    requires !MentionsSad(text)
    ensures DetectEmotion(text) == "cheerful"
  {
    ContainsIgnoringCase(text, HappyWords[k], i);
    assert MentionsHappy(text);
  }
}
