/** The expression selection rule of whisper_mic/vrchat_manager.py: from the
    matched emotion categories and the sentiment classifier's output, choose
    one integer expression code and send it to the avatar on the emote
    address. The Python `random.choice` calls are modelled by caller-supplied
    draws; the UDP client is not modelled, only the message it is given. */
module VRChatManager {
  import opened Common
  import opened Osc
  import opened EmotionAnalysis

  /** One item of the sentiment classifier's output. */
  datatype Sentiment = Sentiment(polarity: string, score: real)

  /** Aggregate emotion category -> expression codes (EMOTION_DICT). */
  const EmotionTable: map<string, seq<int>> := map[
    "喜び" := [6, 7, 8],
    "信頼" := [],
    "恐れ" := [10],
    "驚き" := [],
    "悲しみ" := [11, 12],
    "嫌悪" := [13, 14],
    "怒り" := [15],
    "期待" := [],
    "苦悩" := [16],
    "羞恥" := [],
    "平常" := [0, 1, 2, 3, 4]
  ]

  /** Sentiment polarity -> aggregate emotion categories (SENTIMENT_DICT). */
  const SentimentTable: map<string, seq<string>> := map[
    "POSITIVE" := ["喜び"],
    "NEGATIVE" := ["恐れ", "悲しみ", "嫌悪", "怒り", "苦悩"],
    "NEUTRAL" := ["平常"]
  ]

  /** `code` is one of the emotion table's codes. */
  predicate IsTableCode(code: int)
  {
    exists category :: category in EmotionTable && code in EmotionTable[category]
  }

  /** `code` is reachable from the sentiment `polarity` through one of its categories. */
  predicate IsSentimentCode(polarity: string, code: int)
  {
    polarity in SentimentTable &&
    exists category :: category in SentimentTable[polarity] && category in EmotionTable && code in EmotionTable[category]
  }

  /** `random.choice(xs)` where `xs` comes from `dict.get` and may be None;
      `draw` stands for the random index. */
  function PyChoice<T>(xs: Option<seq<T>>, draw: nat): (r: Result<T>)
    ensures xs.None? ==> r == Err(TypeError)
    ensures xs == Some([]) ==> r == Err(IndexError)
    ensures xs.Some? && |xs.value| > 0 ==> r.Ok? && r.value in xs.value
  {
    match xs
    case None => Err(TypeError)
    case Some(s) => if |s| == 0 then Err(IndexError) else Ok(s[draw % |s|])
  }

  /** Every element of a non-empty list is the choice of some draw. */
  lemma {:induction false} ChoiceReachesEvery<T>(xs: seq<T>, x: T)
    requires x in xs
    ensures exists draw: nat :: PyChoice(Some(xs), draw) == Ok(x)
  {
    var i :| 0 <= i < |xs| && xs[i] == x;
    assert i % |xs| == i;
    assert PyChoice(Some(xs), i) == Ok(x);
  }

  /** The score a sentiment must strictly exceed to drive the expression. */
  function Threshold(polarity: string): (threshold: real)
  {
    if polarity in ["NEGATIVE", "POSITIVE"] then 0.65 else 0.0
  }

  /** The code `change_expression` computes: the first emotion decides when
      there is one; sentiment is consulted only when there is none. */
  function ExpressionNum(emotions: seq<Option<Category>>, sentiments: seq<Sentiment>, draw1: nat, draw2: nat): (r: Result<int>)
    ensures |emotions| > 0 && emotions[0].None? ==> r == Err(TypeError)
    ensures |emotions| > 0 && emotions[0].Some? ==>
      var aggregate := emotions[0].value.aggregate;
      r.Ok? &&
      if aggregate in EmotionTable && |EmotionTable[aggregate]| > 0
      then r.value in EmotionTable[aggregate]
      else r.value == 0
    ensures |emotions| == 0 && |sentiments| == 0 ==> r == Ok(0)
    ensures |emotions| == 0 && |sentiments| > 0 && sentiments[0].score <= Threshold(sentiments[0].polarity) ==>
      r == Ok(0)
    ensures |emotions| == 0 && |sentiments| > 0 && sentiments[0].score > Threshold(sentiments[0].polarity) ==>
      if sentiments[0].polarity in SentimentTable
      then r.Ok? && IsSentimentCode(sentiments[0].polarity, r.value)
      else r == Err(TypeError)
    ensures r.Err? ==> r.error == TypeError
    ensures r.Ok? ==> r.value == 0 || IsTableCode(r.value)
  {
    if |emotions| > 0 then
      match emotions[0]
      case None => Err(TypeError)
      case Some(emotion) =>
        var emotionList := Get(EmotionTable, emotion.aggregate);
        if emotionList.Some? && |emotionList.value| > 0
        then PyChoice(emotionList, draw1)
        else Ok(0)
    else if |sentiments| > 0 then
      var sentiment := sentiments[0].polarity;
      if sentiments[0].score > Threshold(sentiment) then
        var category :- PyChoice(Get(SentimentTable, sentiment), draw1);
        SentimentTableClosed();
        PyChoice(Get(EmotionTable, category), draw2)
      else Ok(0)
    else Ok(0)
  }

  /** `change_expression`: exactly one message, always on the emote address,
      carrying the code the decision chose, which is a code of the table or
      0; an exception of the decision is the call's exception. The call
      returns nothing, so a caller's result is always None. */
  function ChangeExpression(emotions: seq<Option<Category>>, sentiments: seq<Sentiment>, draw1: nat, draw2: nat): (r: Result<Message>)
    ensures ExpressionNum(emotions, sentiments, draw1, draw2).Ok? ==>
      r == Ok(Message(EmoteAddress, ExpressionNum(emotions, sentiments, draw1, draw2).value))
    ensures ExpressionNum(emotions, sentiments, draw1, draw2).Err? ==>
      r == Err(ExpressionNum(emotions, sentiments, draw1, draw2).error)
    ensures r.Err? <==> ExpressionNum(emotions, sentiments, draw1, draw2).Err?
    ensures r.Ok? ==> r.value.address == EmoteAddress
    ensures r.Ok? ==> r.value.value == 0 || IsTableCode(r.value.value)
    ensures r.Ok? ==> r.value.value != 5 && r.value.value != 9
  {
    var code :- ExpressionNum(emotions, sentiments, draw1, draw2);
    TableCodes(code);
    Ok(Message(EmoteAddress, code))
  }

  /** Every category a sentiment can pick has a non-empty code list, so the
      nested choice after a known polarity never fails. */
  lemma SentimentTableClosed()
    ensures forall polarity, category :: polarity in SentimentTable && category in SentimentTable[polarity] ==>
      category in EmotionTable && |EmotionTable[category]| > 0
  {
    forall polarity, category | polarity in SentimentTable && category in SentimentTable[polarity]
      ensures category in EmotionTable && |EmotionTable[category]| > 0
    {
      assert polarity == "POSITIVE" || polarity == "NEGATIVE" || polarity == "NEUTRAL";
    }
  }

  /** The table's codes are exactly 0-4, 6-8 and 10-16: 5 and 9 never appear. */
  lemma TableCodes(code: int)
    ensures IsTableCode(code) <==> code in {0, 1, 2, 3, 4, 6, 7, 8, 10, 11, 12, 13, 14, 15, 16}
  {
    if code in {0, 1, 2, 3, 4} {
      assert code in EmotionTable["平常"];
    } else if code in {6, 7, 8} {
      assert code in EmotionTable["喜び"];
    } else if code == 10 {
      assert code in EmotionTable["恐れ"];
    } else if code in {11, 12} {
      assert code in EmotionTable["悲しみ"];
    } else if code in {13, 14} {
      assert code in EmotionTable["嫌悪"];
    } else if code == 15 {
      assert code in EmotionTable["怒り"];
    } else if code == 16 {
      assert code in EmotionTable["苦悩"];
    }
  }

  /** When there is a first emotion, the sentiments and the second draw play
      no part in the decision. */
  lemma EmotionTakesPrecedence(emotions: seq<Option<Category>>, sentiments1: seq<Sentiment>, sentiments2: seq<Sentiment>, draw1: nat, draw2: nat, draw2': nat)
    requires |emotions| > 0
    ensures ExpressionNum(emotions, sentiments1, draw1, draw2) == ExpressionNum(emotions, sentiments2, draw1, draw2')
  {
  }

  /** A first emotion whose aggregate is unknown or maps to no codes (trust,
      surprise, anticipation, shame) gives 0. */
  lemma EmptyEmotionGivesNeutral(emotions: seq<Option<Category>>, sentiments: seq<Sentiment>, draw1: nat, draw2: nat)
    requires |emotions| > 0 && emotions[0].Some?
    requires emotions[0].value.aggregate in {"信頼", "驚き", "期待", "羞恥"} || emotions[0].value.aggregate !in EmotionTable
    ensures ExpressionNum(emotions, sentiments, draw1, draw2) == Ok(0)
  {
  }

  /** Every code of the first emotion's list is chosen by some draw. */
  lemma EmotionChoiceCoversList(emotions: seq<Option<Category>>, sentiments: seq<Sentiment>, code: int, draw2: nat)
    requires |emotions| > 0 && emotions[0].Some?
    requires emotions[0].value.aggregate in EmotionTable
    requires code in EmotionTable[emotions[0].value.aggregate]
    ensures exists draw1: nat :: ExpressionNum(emotions, sentiments, draw1, draw2) == Ok(code)
  {
    var list := EmotionTable[emotions[0].value.aggregate];
    ChoiceReachesEvery(list, code);
    var draw1: nat :| PyChoice(Some(list), draw1) == Ok(code);
    assert ExpressionNum(emotions, sentiments, draw1, draw2) == Ok(code);
  }

  /** POSITIVE and NEGATIVE drive a non-neutral code iff the score is
      strictly above 0.65; exactly 0.65 gives 0. */
  lemma PolarSentimentThreshold(sentiments: seq<Sentiment>, draw1: nat, draw2: nat)
    requires |sentiments| > 0 && sentiments[0].polarity in {"POSITIVE", "NEGATIVE"}
    ensures ExpressionNum([], sentiments, draw1, draw2).Ok?
    ensures ExpressionNum([], sentiments, draw1, draw2).value != 0 <==> sentiments[0].score > 0.65
    ensures sentiments[0].score == 0.65 ==> ExpressionNum([], sentiments, draw1, draw2) == Ok(0)
  {
    var r := ExpressionNum([], sentiments, draw1, draw2);
    if sentiments[0].score > 0.65 {
      var polarity := sentiments[0].polarity;
      var category :| category in SentimentTable[polarity] && category in EmotionTable && r.value in EmotionTable[category];
      if polarity == "POSITIVE" {
        assert category == "喜び";
      } else {
        assert category in ["恐れ", "悲しみ", "嫌悪", "怒り", "苦悩"];
      }
    }
  }

  /** Any other polarity has threshold 0: NEUTRAL with a positive score picks a
      calm code 0-4, and a polarity the table lacks raises TypeError; a score of
      0 or below gives 0. */
  lemma OtherSentimentThreshold(sentiments: seq<Sentiment>, draw1: nat, draw2: nat)
    requires |sentiments| > 0 && sentiments[0].polarity !in {"POSITIVE", "NEGATIVE"}
    ensures sentiments[0].score <= 0.0 ==> ExpressionNum([], sentiments, draw1, draw2) == Ok(0)
    ensures sentiments[0].score > 0.0 && sentiments[0].polarity == "NEUTRAL" ==>
      ExpressionNum([], sentiments, draw1, draw2).Ok? &&
      ExpressionNum([], sentiments, draw1, draw2).value in {0, 1, 2, 3, 4}
    ensures sentiments[0].score > 0.0 && sentiments[0].polarity != "NEUTRAL" ==>
      ExpressionNum([], sentiments, draw1, draw2) == Err(TypeError)
  {
    var r := ExpressionNum([], sentiments, draw1, draw2);
    if sentiments[0].score > 0.0 && sentiments[0].polarity == "NEUTRAL" {
      var category :| category in SentimentTable["NEUTRAL"] && category in EmotionTable && r.value in EmotionTable[category];
      assert category == "平常";
    }
  }

  /** The call raises exactly when the first emotion is a tag the category
      table lacked, or when a polarity outside the table clears its threshold. */
  lemma RaisesExactlyWhen(emotions: seq<Option<Category>>, sentiments: seq<Sentiment>, draw1: nat, draw2: nat)
    ensures ExpressionNum(emotions, sentiments, draw1, draw2).Err? <==>
      (|emotions| > 0 && emotions[0].None?) ||
      (|emotions| == 0 && |sentiments| > 0 && sentiments[0].polarity !in SentimentTable &&
       sentiments[0].score > 0.0)
  {
  }

  /** Every code a sentiment polarity can lead to is also chosen by some pair of draws. */
  lemma SentimentChoiceCovers(sentiments: seq<Sentiment>, code: int)
    requires |sentiments| > 0 && sentiments[0].score > Threshold(sentiments[0].polarity)
    requires IsSentimentCode(sentiments[0].polarity, code)
    ensures exists draw1: nat, draw2: nat :: ExpressionNum([], sentiments, draw1, draw2) == Ok(code)
  {
    var polarity := sentiments[0].polarity;
    var category :| category in SentimentTable[polarity] && category in EmotionTable && code in EmotionTable[category];
    ChoiceReachesEvery(SentimentTable[polarity], category);
    var draw1: nat :| PyChoice(Some(SentimentTable[polarity]), draw1) == Ok(category);
    ChoiceReachesEvery(EmotionTable[category], code);
    var draw2: nat :| PyChoice(Some(EmotionTable[category]), draw2) == Ok(code);
    assert ExpressionNum([], sentiments, draw1, draw2) == Ok(code);
  }
}
