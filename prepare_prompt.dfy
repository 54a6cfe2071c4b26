/** The prompt stage: it asks a sentiment service and a key-phrase service
    about the client's text, turns the strongest sentiment into a mood word,
    and builds the image prompt from that word and the key phrases. */
module PreparePrompt {
  import opened Common
  import opened Events

  /** The sentiment service's four scores. */
  datatype SentimentScore = SentimentScore(positive: real, negative: real, neutral: real, mixed: real)

  /** The labels under which the scores are put in a map. */
  const Labels: seq<string> := ["Positive", "Negative", "Neutral", "Mixed"]

  /** Go leaves the iteration order of a map unspecified: any arrangement of
      the four labels, each once, is a possible order. */
  predicate IsIterationOrder(order: seq<string>) {
    multiset(order) == multiset(Labels)
  }

  /** The map lookup: the score filed under a label. */
  function ScoreOf(scores: SentimentScore, sentiment: string): real
  {
    if sentiment == "Positive" then scores.positive
    else if sentiment == "Negative" then scores.negative
    else if sentiment == "Neutral" then scores.neutral
    else if sentiment == "Mixed" then scores.mixed
    else 0.0
  }

  /** The scan over the rest of the order, with the running maximum `best`
      and its label `top`: a label replaces the current one only when its
      score is strictly greater. */
  function Scan(scores: SentimentScore, rest: seq<string>, best: real, top: string): string
    decreases |rest|
  {
    if rest == [] then top
    else if ScoreOf(scores, rest[0]) > best then Scan(scores, rest[1..], ScoreOf(scores, rest[0]), rest[0])
    else Scan(scores, rest[1..], best, top)
  }

  /** The label the scan settles on: the running maximum starts at zero and
      the label at the empty string. */
  function TopLabel(scores: SentimentScore, order: seq<string>): string
  {
    Scan(scores, order, 0.0, "")
  }

  /** The mood word of a label; any other string is kept as it is. */
  function TokenOf(sentiment: string): (token: string)
    ensures sentiment in Labels ==> token in {"happy", "sad", "neutral"}
    ensures sentiment !in Labels ==> token == sentiment
  {
    if sentiment == "Positive" then "happy"
    else if sentiment == "Negative" then "sad"
    else if sentiment == "Neutral" || sentiment == "Mixed" then "neutral"
    else sentiment
  }

  /** What a scan ends with: either it kept `top` because nothing in `rest`
      beat `best`, or it chose a label of `rest` that beat `best` and that
      no label of `rest` beats. */
  lemma {:induction false} ScanOutcome(scores: SentimentScore, rest: seq<string>, best: real, top: string)
    ensures var r := Scan(scores, rest, best, top);
      || (r == top && forall l :: l in rest ==> ScoreOf(scores, l) <= best)
      || (r in rest && ScoreOf(scores, r) > best && forall l :: l in rest ==> ScoreOf(scores, l) <= ScoreOf(scores, r))
    decreases |rest|
  {
    if rest != [] {
      var s := ScoreOf(scores, rest[0]);
      assert forall l :: l in rest ==> l == rest[0] || l in rest[1..];
      if s > best {
        ScanOutcome(scores, rest[1..], s, rest[0]);
      } else {
        ScanOutcome(scores, rest[1..], best, top);
      }
    }
  }

  /** The same outcome for the whole scan over an iteration order. */
  lemma TopLabelOutcome(scores: SentimentScore, order: seq<string>)
    requires IsIterationOrder(order)
    ensures var r := TopLabel(scores, order);
      || (r == "" && forall l :: l in Labels ==> ScoreOf(scores, l) <= 0.0)
      || (r in Labels && ScoreOf(scores, r) > 0.0 && forall l :: l in Labels ==> ScoreOf(scores, l) <= ScoreOf(scores, r))
  {
    ScanOutcome(scores, order, 0.0, "");
    assert forall l :: l in Labels <==> l in multiset(Labels);
    assert forall l :: l in order <==> l in multiset(order);
  }

  /** `getTopSentiment`: the scan over the map, then the mood word. */
  method GetTopSentiment(scores: SentimentScore, order: seq<string>) returns (token: string)
    requires IsIterationOrder(order)
    ensures token == TokenOf(TopLabel(scores, order))
    ensures token in {"happy", "sad", "neutral", ""}
  {
    var maxScore: real := 0.0;
    var top := "";
    var i := 0;
    while i < |order|
      invariant 0 <= i <= |order|
      invariant Scan(scores, order[i..], maxScore, top) == TopLabel(scores, order)
    {
      var score := ScoreOf(scores, order[i]);
      assert order[i..][1..] == order[i + 1..];
      if score > maxScore {
        maxScore := score;
        top := order[i];
      }
      i := i + 1;
    }
    token := TokenOf(top);
    TokenRange(scores, order);
  }

  /** The result is always one of the three mood words or empty. */
  lemma TokenRange(scores: SentimentScore, order: seq<string>)
    requires IsIterationOrder(order)
    ensures TokenOf(TopLabel(scores, order)) in {"happy", "sad", "neutral", ""}
  {
    TopLabelOutcome(scores, order);
  }

  /** The result is empty exactly when no score is positive: the running
      maximum starts at zero and only a strictly greater score replaces it. */
  lemma EmptyTokenIffNoPositiveScore(scores: SentimentScore, order: seq<string>)
    requires IsIterationOrder(order)
    ensures TokenOf(TopLabel(scores, order)) == "" <==>
      scores.positive <= 0.0 && scores.negative <= 0.0 && scores.neutral <= 0.0 && scores.mixed <= 0.0
  {
    TopLabelOutcome(scores, order);
    assert ScoreOf(scores, "Positive") == scores.positive;
    assert ScoreOf(scores, "Negative") == scores.negative;
    assert ScoreOf(scores, "Neutral") == scores.neutral;
    assert ScoreOf(scores, "Mixed") == scores.mixed;
  }

  /** A positive score strictly above the three others wins in every order. */
  lemma UniqueMaximumWins(scores: SentimentScore, order: seq<string>, sentiment: string)
    requires IsIterationOrder(order)
    requires sentiment in Labels && ScoreOf(scores, sentiment) > 0.0
    requires forall l :: l in Labels && l != sentiment ==> ScoreOf(scores, l) < ScoreOf(scores, sentiment)
    ensures TopLabel(scores, order) == sentiment
  {
    TopLabelOutcome(scores, order);
  }

  /** A non-empty result names a label whose score is positive and not
      below any other score. */
  lemma NonEmptyTokenIsMaximum(scores: SentimentScore, order: seq<string>)
    requires IsIterationOrder(order)
    requires TokenOf(TopLabel(scores, order)) != ""
    ensures TopLabel(scores, order) in Labels
    ensures ScoreOf(scores, TopLabel(scores, order)) > 0.0
    ensures forall l :: l in Labels ==> ScoreOf(scores, l) <= ScoreOf(scores, TopLabel(scores, order))
  {
    TopLabelOutcome(scores, order);
  }

  /** Two labels share a mood word only when they are "Neutral" and "Mixed". */
  lemma SharedTokenIsNeutral(l1: string, l2: string)
    requires l1 in Labels && l2 in Labels && l1 != l2
    requires TokenOf(l1) == TokenOf(l2)
    ensures {l1, l2} == {"Neutral", "Mixed"}
  {
  }

  /** A tie is broken by the iteration order: the first of the tied labels
      scanned wins, so the same scores can give different words. */
  lemma TieDependsOnOrder()
    ensures var scores := SentimentScore(0.5, 0.5, 0.0, 0.0);
      && TokenOf(TopLabel(scores, ["Positive", "Negative", "Neutral", "Mixed"])) == "happy"
      && TokenOf(TopLabel(scores, ["Negative", "Positive", "Neutral", "Mixed"])) == "sad"
  {
    var scores := SentimentScore(0.5, 0.5, 0.0, 0.0);
    var o1 := ["Positive", "Negative", "Neutral", "Mixed"];
    var o2 := ["Negative", "Positive", "Neutral", "Mixed"];
    assert o1[1..] == ["Negative", "Neutral", "Mixed"] && o1[1..][1..] == ["Neutral", "Mixed"];
    assert o2[1..] == ["Positive", "Neutral", "Mixed"] && o2[1..][1..] == ["Neutral", "Mixed"];
    assert Scan(scores, ["Neutral", "Mixed"], 0.5, "Positive") == "Positive";
    assert Scan(scores, ["Neutral", "Mixed"], 0.5, "Negative") == "Negative";
  }

  /** `strings.Join`: the words with `sep` between each two. */
  function Join(words: seq<string>, sep: string): string
    decreases |words|
  {
    if words == [] then ""
    else if |words| == 1 then words[0]
    else words[0] + sep + Join(words[1..], sep)
  }

  /** Joining adds one separator between each two words and nothing else. */
  lemma {:induction false} JoinLength(words: seq<string>, sep: string)
    requires words != []
    ensures |Join(words, sep)| == SumLengths(words) + (|words| - 1) * |sep|
    decreases |words|
  {
    if |words| > 1 {
      JoinLength(words[1..], sep);
    }
  }

  function SumLengths(words: seq<string>): nat
    decreases |words|
  {
    if words == [] then 0 else |words[0]| + SumLengths(words[1..])
  }

  /** Joining one more word appends a separator and that word. */
  lemma {:induction false} JoinAppend(words: seq<string>, w: string, sep: string)
    requires words != []
    ensures Join(words + [w], sep) == Join(words, sep) + sep + w
    decreases |words|
  {
    if |words| == 1 {
      assert (words + [w])[1..] == [w];
    } else {
      assert (words + [w])[1..] == words[1..] + [w];
      JoinAppend(words[1..], w, sep);
    }
  }

  /** The word list: the mood word first, then the key phrases in order. */
  method BuildWords(token: string, phrases: seq<string>) returns (words: seq<string>)
    ensures words == [token] + phrases
  {
    words := [token];
    var i := 0;
    while i < |phrases|
      invariant 0 <= i <= |phrases|
      invariant words == [token] + phrases[..i]
    {
      words := words + [phrases[i]];
      i := i + 1;
    }
    assert phrases[..i] == phrases;
  }

  const PromptPrefix: string := "Generate a image based on the following key words: "

  /** The prompt: the fixed preamble and the words joined by single spaces. */
  function PromptOf(words: seq<string>): (prompt: string)
    ensures |prompt| >= |PromptPrefix| && prompt[..|PromptPrefix|] == PromptPrefix
  {
    PromptPrefix + Join(words, " ")
  }

  /** The prompt holds the mood word right after the preamble, even when the
      word is empty, and then each key phrase behind a space. */
  lemma {:induction false} PromptShape(token: string, phrases: seq<string>)
    ensures PromptOf([token] + phrases) ==
      PromptPrefix + token + (if phrases == [] then "" else " " + Join(phrases, " "))
  {
    var words := [token] + phrases;
    if phrases != [] {
      assert words[1..] == phrases;
    }
  }

  /** The prompt of the words "happy", "sunny days". */
  lemma PromptExample()
    ensures PromptOf(["happy", "sunny days"]) == "Generate a image based on the following key words: happy sunny days"
  {
    PromptShape("happy", ["sunny days"]);
  }

  /** What the handler asks the language services: the text in English,
      from the region the session is configured with. */
  datatype AnalysisRequest = AnalysisRequest(region: string, text: string, languageCode: string)

  /** The prompt stage's handler. `detectSentiment` and `detectKeyPhrases`
      stand for the two service calls, `order` for the map's iteration order. */
  method Handle(event: EventDetail,
                detectSentiment: AnalysisRequest -> Reply<SentimentScore>,
                detectKeyPhrases: AnalysisRequest -> Reply<seq<string>>,
                order: seq<string>)
    returns (out: PromptEvent, err: Option<Error>)
    requires IsIterationOrder(order)
    ensures var request := AnalysisRequest("eu-west-1", event.text, "en");
      match detectSentiment(request)
      case Failed(cause) => out == EmptyPromptEvent && err == Some(CallFailed(DetectSentiment, cause))
      case Done(scores) =>
        match detectKeyPhrases(request)
        case Failed(cause) => out == EmptyPromptEvent && err == Some(CallFailed(DetectKeyPhrases, cause))
        case Done(phrases) =>
          && err == None
          && out == PromptEvent(event.connectionId, PromptOf([TokenOf(TopLabel(scores, order))] + phrases), event.s3Key, event.bedrock)
    ensures err == None ==> out.connectionId == event.connectionId && out.s3Key == event.s3Key && out.bedrock == event.bedrock
  {
    var request := AnalysisRequest("eu-west-1", event.text, "en");
    var sentiment := detectSentiment(request);
    if sentiment.Failed? {
      return EmptyPromptEvent, Some(CallFailed(DetectSentiment, sentiment.cause));
    }
    var keyPhrases := detectKeyPhrases(request);
    if keyPhrases.Failed? {
      return EmptyPromptEvent, Some(CallFailed(DetectKeyPhrases, keyPhrases.cause));
    }
    var token := GetTopSentiment(sentiment.value, order);
    var words := BuildWords(token, keyPhrases.value);
    out := PromptEvent(event.connectionId, PromptOf(words), event.s3Key, event.bedrock);
    err := None;
  }
}
