/** `pick_emotion`: the mood tag attached to every answer.  The text is lower-cased and the
    emotion table is scanned in order; the first label one of whose keywords occurs in the
    text wins.  When none does, the tag is picked at random from "neutral" and "explaining";
    the model leaves that choice open. */
module Utils {
  import opened Common
  import opened Text

  /** `EMOTION_MAP`, in its insertion order, which is the order it is scanned in. */
  const EmotionMap: seq<(string, seq<string>)> := [
    ("happy", ["congrat", "great", "happy", "nice", "awesome"]),
    ("explaining", ["explain", "because", "therefore", "in summary", "first", "second"]),
    ("thinking", ["let me think", "hmm", "thinking", "consider"]),
    ("neutral", [])
  ]

  const FallbackEmotions: set<string> := {"neutral", "explaining"}
  const Emotions: set<string> := {"happy", "explaining", "thinking", "neutral"}

  /** The inner loop: whether some keyword of `keywords` occurs in `txt`. */
  function AnyKeyword(keywords: seq<string>, txt: string): (found: bool)
    ensures found <==> ContainsAny(txt, keywords)
  {
    if keywords == [] then false
    else if Contains(txt, keywords[0]) then true
    else
      var rest := AnyKeyword(keywords[1..], txt);
      assert ContainsAny(txt, keywords) ==> ContainsAny(txt, keywords[1..]) by {
        if ContainsAny(txt, keywords) {
          var k :| 0 <= k < |keywords| && Contains(txt, keywords[k]);
          assert keywords[1..][k - 1] == keywords[k];
        }
      }
      rest
  }

  /** The outer loop: the index of the first entry of `table` with a keyword in `txt`. */
  function FirstMatch(table: seq<(string, seq<string>)>, txt: string): (r: Option<nat>)
    ensures r.Some? ==> r.value < |table| && ContainsAny(txt, table[r.value].1)
    ensures r.Some? ==> forall j :: 0 <= j < r.value ==> !ContainsAny(txt, table[j].1)
    ensures r.None? ==> forall j :: 0 <= j < |table| ==> !ContainsAny(txt, table[j].1)
  {
    if table == [] then None
    else if AnyKeyword(table[0].1, txt) then Some(0)
    else
      match FirstMatch(table[1..], txt)
      case None => None
      case Some(i) => Some(i + 1)
  }

  /** The label the table scan returns for `text`, if any. */
  function TableEmotion(text: string): (tag: Option<string>)
    ensures tag.Some? <==> exists i :: 0 <= i < |EmotionMap| && ContainsAny(Lower(text), EmotionMap[i].1)
    ensures tag.Some? ==> exists i :: 0 <= i < |EmotionMap| && tag.value == EmotionMap[i].0
  {
    match FirstMatch(EmotionMap, Lower(text))
    case None => None
    case Some(i) => Some(EmotionMap[i].0)
  }

  /** What `pick_emotion(text)` may return: the table's label when a keyword matches, and
      otherwise either fallback label. */
  predicate IsPickedEmotion(text: string, emotion: string) {
    match TableEmotion(text)
    case Some(tag) => emotion == tag
    case None => emotion in FallbackEmotions
  }

  /** `pick_emotion`. */
  method PickEmotion(text: string) returns (emotion: string)
    ensures IsPickedEmotion(text, emotion)
    ensures emotion in Emotions
  {
    var txt := Lower(text);
    match FirstMatch(EmotionMap, txt)
    case Some(i) =>
      emotion := EmotionMap[i].0;
    case None =>
      assert "neutral" in FallbackEmotions;
      emotion :| emotion in FallbackEmotions;
  }

  /** The table scan returns the first label, in table order, having a keyword that occurs in
      the lower-cased text -- and never "neutral", which has no keywords. */
  lemma TableEmotionIsFirstMatch(text: string, i: nat)
    requires i < |EmotionMap|
    requires ContainsAny(Lower(text), EmotionMap[i].1)
    requires forall j :: 0 <= j < i ==> !ContainsAny(Lower(text), EmotionMap[j].1)
    ensures TableEmotion(text) == Some(EmotionMap[i].0)
    ensures i < 3
  {
    var r := FirstMatch(EmotionMap, Lower(text));
    assert r.Some?;
    assert r.value == i;
  }

  /** The table scan yields one of the three labels that have keywords, or nothing; so the
      picked tag is always one of the four labels, and only the fallback can give "neutral". */
  lemma TableEmotionLabels(text: string)
    ensures TableEmotion(text).Some? ==> TableEmotion(text).value in {"happy", "explaining", "thinking"}
    ensures TableEmotion(text) != Some("neutral")
  {
    assert !ContainsAny(Lower(text), EmotionMap[3].1);
  }

  /** A "happy" keyword written in any case, anywhere in the text, makes the tag "happy",
      whatever other keywords occur: "great ... first" is "happy", not "explaining". */
  lemma HappyKeywordWins(text: string, k: nat, i: nat)
    requires k < |EmotionMap[0].1|
    requires i + |EmotionMap[0].1[k]| <= |text|
    requires Lower(text[i..i + |EmotionMap[0].1[k]|]) == EmotionMap[0].1[k]
    ensures TableEmotion(text) == Some("happy")
  {
    ContainsIgnoringCase(text, EmotionMap[0].1[k], i);
    TableEmotionIsFirstMatch(text, 0);
  }
}
