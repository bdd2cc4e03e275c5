// The decision rules of the transcription script: emotion weights, the
// threat flag, the weighted risk score, the five-step alert ladder and the
// routing of the speech-to-text service's JSON reply. The speech-to-text
// service, the chat-model threat check, the emotion classifier and the SMS
// gateway are external: their answers are parameters.

module Transcribe {
  import opened Text

  /** Weight of a classifier emotion code; codes outside the table weigh 0. */
  function EmotionToNumber(code: string): (n: nat)
    ensures n <= 3
    ensures n == 3 <==> code == "FEA"
    ensures n == 2 <==> code == "SAD"
    ensures n == 1 <==> code == "ANG"
  {
    var weights: map<string, nat> := map[
      "FEA" := 3, "SAD" := 2, "ANG" := 1,
      "HAP" := 0, "DIS" := 0, "NEU" := 0, "SUR" := 0];
    if code in weights then weights[code] else 0
  }

  /** emotion_detection: the weight of the predicted code, or 0 when the
      prediction failed (None). */
  function EmotionDetection(prediction: Option<string>): (n: nat)
    ensures n <= 3
    ensures prediction == None ==> n == 0
    ensures prediction.Some? ==> n == EmotionToNumber(prediction.value)
  {
    match prediction
    case Some(code) => EmotionToNumber(code)
    case None => 0
  }

  /** 1 when the verdict, stripped and lowercased, is "yes"; otherwise 0. */
  function ThreatBinary(verdict: string): (t: nat)
    ensures t <= 1
  {
    if Lower(Strip(Py, verdict)) == "yes" then 1 else 0
  }

  /** A three-letter "yes" in any mix of cases. */
  predicate YesWord(w: string)
  {
    |w| == 3 && (w[0] == 'y' || w[0] == 'Y') && (w[1] == 'e' || w[1] == 'E') && (w[2] == 's' || w[2] == 'S')
  }

  /** Lowercasing gives "yes" exactly for a "yes" in some case mix. */
  lemma LowerIsYes(w: string)
    ensures Lower(w) == "yes" <==> YesWord(w)
  {
    if Lower(w) == "yes" {
      assert LowerChar(w[0]) == 'y' && LowerChar(w[1]) == 'e' && LowerChar(w[2]) == 's';
    }
    if YesWord(w) {
      assert Lower(w) == [LowerChar(w[0]), LowerChar(w[1]), LowerChar(w[2])];
    }
  }

  /** The whitespace-padded yes words: exactly the verdicts that set the flag. */
  predicate PaddedYes(verdict: string)
  {
    exists i, j :: 0 <= i <= j <= |verdict| && AllSpace(Py, verdict[..i])
      && YesWord(verdict[i..j]) && AllSpace(Py, verdict[j..])
  }

  /** The threat flag is set exactly for a verdict that is "yes" in some case
      mix, surrounded by nothing but Python whitespace. */
  lemma ThreatIffPaddedYes(verdict: string)
    ensures ThreatBinary(verdict) == 1 <==> PaddedYes(verdict)
  {
    if ThreatBinary(verdict) == 1 {
      ThreatIsPaddedYes(verdict);
    }
    if PaddedYes(verdict) {
      PaddedYesIsThreat(verdict);
    }
  }

  lemma ThreatIsPaddedYes(verdict: string)
    requires ThreatBinary(verdict) == 1
    ensures PaddedYes(verdict)
  {
    var i, j := StripSplitsPadding(Py, verdict);
    LowerIsYes(Strip(Py, verdict));
  }

  lemma PaddedYesIsThreat(verdict: string)
    requires PaddedYes(verdict)
    ensures ThreatBinary(verdict) == 1
  {
    var i, j :| 0 <= i <= j <= |verdict| && AllSpace(Py, verdict[..i])
      && YesWord(verdict[i..j]) && AllSpace(Py, verdict[j..]);
    var core := verdict[i..j];
    assert verdict == verdict[..i] + core + verdict[j..];
    StripOfPadded(Py, verdict[..i], core, verdict[j..]);
    LowerIsYes(core);
  }

  /** Padding and case do not matter. */
  lemma PaddedUpperYesIsThreat(verdict: string)
    requires verdict == " YES\n"
    ensures ThreatBinary(verdict) == 1
  {
    assert verdict == " " + "YES" + "\n";
    StripOfPadded(Py, " ", "YES", "\n");
    LowerIsYes("YES");
  }

  /** The "Error" fallback of the threat check and a "Yes." with a period
      are not threats. */
  lemma ErrorAndPunctuatedAreNoThreat(verdict: string)
    requires verdict == "Error" || verdict == "Yes."
    ensures ThreatBinary(verdict) == 0
  {
    assert verdict == "" + verdict + "";
    StripOfPadded(Py, "", verdict, "");
  }

  const ThreatWeight: real := 0.8
  const EmotionWeight: real := 0.2

  /** Weighted risk: 0.8 for a threat plus 0.2 times the emotion weight
      normalised by its maximum 3. Equivalently (12 * threat + emotion) / 15. */
  function RiskScore(verdict: string, emotion: int): (r: real)
    ensures r == (12 * ThreatBinary(verdict) + emotion) as real / 15.0
    ensures 0 <= emotion <= 3 ==> 0.0 <= r <= 1.0
  {
    ThreatWeight * ThreatBinary(verdict) as real + EmotionWeight * (emotion as real / 3.0)
  }

  /** The five messages sent by SMS, from least to most severe. */
  datatype Alert = Safe | Caution | Warning | HighAlert | Critical
  {
    function Message(): string
    {
      match this
      case Safe => "I am safe"
      case Caution => "CAUTION: Situation unclear but concerning"
      case Warning => "WARNING: I might be in danger"
      case HighAlert => "HIGH ALERT: I am in serious danger"
      case Critical => "CRITICAL: Immediate danger detected!"
    }

    function Severity(): nat
    {
      match this
      case Safe => 0
      case Caution => 1
      case Warning => 2
      case HighAlert => 3
      case Critical => 4
    }
  }

  /** Distinct alerts send distinct messages. */
  lemma MessagesDistinct(a: Alert, b: Alert)
    ensures a.Message() == b.Message() <==> a == b
  {
  }

  const Thresholds: seq<real> := [0.8, 0.6, 0.4, 0.2]

  /** How many of the thresholds the score reaches. */
  function ThresholdsMet(score: real, ts: seq<real>): nat
  {
    if ts == [] then 0 else (if score >= ts[0] then 1 else 0) + ThresholdsMet(score, ts[1..])
  }

  /** The alert ladder, compared from the top: the first threshold reached
      wins; below the lowest one the speaker is safe. */
  function DangerLevel(score: real): (a: Alert)
    ensures a == Critical <==> score >= 0.8
    ensures a == Safe <==> score < 0.2
  {
    if score >= 0.8 then Critical
    else if score >= 0.6 then HighAlert
    else if score >= 0.4 then Warning
    else if score >= 0.2 then Caution
    else Safe
  }

  /** The severity of the ladder's alert is the number of thresholds the
      score reaches, in whatever order they are compared. */
  lemma DangerLevelCountsThresholds(score: real)
    ensures DangerLevel(score).Severity() == ThresholdsMet(score, Thresholds)
  {
    var t := Thresholds;
    assert t[1..][1..][1..][1..] == [];
    assert ThresholdsMet(score, t[1..][1..][1..]) == (if score >= 0.2 then 1 else 0);
    assert ThresholdsMet(score, t[1..][1..]) == (if score >= 0.4 then 1 else 0) + (if score >= 0.2 then 1 else 0);
  }

  /** A higher score reaches at least the thresholds a lower one does. */
  lemma {:induction false} ThresholdsMetMonotone(lo: real, hi: real, ts: seq<real>)
    requires lo <= hi
    ensures ThresholdsMet(lo, ts) <= ThresholdsMet(hi, ts)
  {
    if ts != [] {
      ThresholdsMetMonotone(lo, hi, ts[1..]);
    }
  }

  /** A higher score never yields a less severe alert. */
  lemma DangerLevelMonotone(lo: real, hi: real)
    requires lo <= hi
    ensures DangerLevel(lo).Severity() <= DangerLevel(hi).Severity()
  {
    DangerLevelCountsThresholds(lo);
    DangerLevelCountsThresholds(hi);
    ThresholdsMetMonotone(lo, hi, Thresholds);
  }

  /** The alert sent for a verdict and an emotion prediction. */
  function AlertFor(verdict: string, prediction: Option<string>): (a: Alert)
    ensures a == Critical <==> ThreatBinary(verdict) == 1
  {
    DangerLevel(RiskScore(verdict, EmotionDetection(prediction)))
  }

  /** A "yes" verdict is critical whatever the emotion. */
  lemma YesIsCritical(verdict: string, prediction: Option<string>)
    requires ThreatBinary(verdict) == 1
    ensures AlertFor(verdict, prediction) == Critical
  {
  }

  /** Without a "yes" verdict the alert is at most a caution, and a caution
      exactly when the emotion is fear. */
  lemma NoThreatAtMostCaution(verdict: string, prediction: Option<string>)
    requires ThreatBinary(verdict) == 0
    ensures AlertFor(verdict, prediction).Severity() <= Caution.Severity()
    ensures AlertFor(verdict, prediction) == Caution <==> prediction == Some("FEA")
  {
  }

  /** A decoded JSON value. */
  datatype Json = JNull | JBool(b: bool) | JNum(n: int) | JStr(s: string) | JArr(items: seq<Json>) | JObj(fields: map<string, Json>)

  /** The result of evaluating a Python expression: a value, or an exception
      that none of the handlers inside transcribe_audio catches. */
  datatype Py<T> = Val(v: T) | Raise

  /** Python `key in x`: key of a dict, element of a list, substring of a
      str; a TypeError for numbers, booleans and None. */
  function In(key: string, x: Json): (r: Py<bool>)
    ensures r == Raise <==> (x.JNull? || x.JBool? || x.JNum?)
  {
    match x
    case JObj(m) => Val(key in m)
    case JArr(items) => Val(JStr(key) in items)
    case JStr(s) => Val(Contains(s, key))
    case _ => Raise
  }

  /** Python `x[key]`: only a dict holding the key gives a value; a list or
      str raises TypeError, a missing key KeyError. */
  function Subscript(x: Json, key: string): (r: Py<Json>)
    ensures r.Val? <==> x.JObj? && key in x.fields
  {
    match x
    case JObj(m) => if key in m then Val(m[key]) else Raise
    case _ => Raise
  }

  /** What transcribe_audio ends with: the threat verdict (after sending the
      alert), the top-level transcript as it is, None, or an exception that
      escapes to the script's top level. */
  datatype Transcription = Threat(verdict: string, alert: Alert) | Plain(text: Json) | NoText | Raised

  /** Outcome of the upload to the speech-to-text service: the request
      failed, or a reply arrived whose body is JSON (Some) or not (None). */
  datatype Post = RequestFailed | Responded(body: Option<Json>)

  /** Python `'response' in result and 'text' in result['response']`. */
  function HasNestedText(result: Json): (r: Py<bool>)
    ensures r == Val(true) <==>
      result.JObj? && "response" in result.fields && In("text", result.fields["response"]) == Val(true)
    ensures r == Raise <==>
      || result.JNull? || result.JBool? || result.JNum?
      || (result.JArr? && JStr("response") in result.items)
      || (result.JStr? && Contains(result.s, "response"))
      || (result.JObj? && "response" in result.fields && In("text", result.fields["response"]) == Raise)
  {
    match In("response", result)
    case Raise => Raise
    case Val(false) => Val(false)
    case Val(true) =>
      match Subscript(result, "response")
      case Raise => Raise
      case Val(inner) => In("text", inner)
  }

  /** The branching on the decoded reply: a nested response.text first,
      then a top-level text, else nothing. */
  function Route(result: Json, verdict: string, prediction: Option<string>): (r: Transcription)
    ensures r.Threat? <==> (result.JObj? && "response" in result.fields
      && result.fields["response"].JObj? && "text" in result.fields["response"].fields)
    ensures r.Threat? ==> r.verdict == verdict && r.alert == AlertFor(verdict, prediction)
    ensures r.Plain? <==> HasNestedText(result) == Val(false) && result.JObj? && "text" in result.fields
    ensures r.Plain? ==> r.text == result.fields["text"]
    ensures r == NoText <==> HasNestedText(result) == Val(false) && In("text", result) == Val(false)
  {
    match HasNestedText(result)
    case Raise => Raised
    case Val(true) =>
      (match Subscript(result.fields["response"], "text")
       case Raise => Raised
       case Val(_) => Threat(verdict, AlertFor(verdict, prediction)))
    case Val(false) =>
      (match In("text", result)
       case Raise => Raised
       case Val(false) => NoText
       case Val(true) =>
         match Subscript(result, "text")
         case Raise => Raised
         case Val(text) => Plain(text))
  }

  /** transcribe_audio as written: when requests.post raises, the handler
      reads `response`, which was never bound, and raises again. */
  function TranscribeAudioAsWritten(post: Post, verdict: string, prediction: Option<string>): (r: Transcription)
    ensures post == RequestFailed ==> r == Raised
    ensures post == Responded(None) ==> r == NoText
  {
    match post
    case RequestFailed => Raised
    case Responded(None) => NoText
    case Responded(Some(result)) => Route(result, verdict, prediction)
  }

  /** transcribe_audio as its handler evidently intends: a failed request
      returns None. */
  function TranscribeAudio(post: Post, verdict: string, prediction: Option<string>): (r: Transcription)
    ensures post.RequestFailed? || post == Responded(None) ==> r == NoText
    ensures r.Threat? ==> r.verdict == verdict && r.alert == AlertFor(verdict, prediction)
  {
    match post
    case RequestFailed => NoText
    case Responded(None) => NoText
    case Responded(Some(result)) => Route(result, verdict, prediction)
  }

  /** The two differ only on a failed request. */
  lemma RequestFailureFinding(verdict: string, prediction: Option<string>)
    ensures TranscribeAudioAsWritten(RequestFailed, verdict, prediction) == Raised
    ensures TranscribeAudio(RequestFailed, verdict, prediction) == NoText
    ensures forall post :: post != RequestFailed ==>
      TranscribeAudioAsWritten(post, verdict, prediction) == TranscribeAudio(post, verdict, prediction)
  {
  }

  /** An object reply with a nested response.text yields the threat verdict,
      whatever its top level holds. */
  lemma NestedTextTakesPrecedence(fields: map<string, Json>, verdict: string, prediction: Option<string>)
    requires "response" in fields && fields["response"].JObj? && "text" in fields["response"].fields
    ensures TranscribeAudio(Responded(Some(JObj(fields))), verdict, prediction)
      == Threat(verdict, AlertFor(verdict, prediction))
  {
    assert HasNestedText(JObj(fields)) == Val(true);
  }

  /** Without a usable nested text, a top-level text is returned as it is. */
  lemma TopLevelTextAsIs(fields: map<string, Json>, verdict: string, prediction: Option<string>)
    requires "text" in fields
    requires "response" !in fields || (fields["response"].JObj? && "text" !in fields["response"].fields)
    ensures TranscribeAudio(Responded(Some(JObj(fields))), verdict, prediction) == Plain(fields["text"])
  {
  }

  /** An object reply with neither text gives None. */
  lemma NoTextField(fields: map<string, Json>, verdict: string, prediction: Option<string>)
    requires "text" !in fields
    requires "response" !in fields || (fields["response"].JObj? && "text" !in fields["response"].fields)
    ensures TranscribeAudio(Responded(Some(JObj(fields))), verdict, prediction) == NoText
  {
  }

  /** A "response" member that is a string containing "text", or null,
      makes the script raise instead of falling back to the top level. */
  lemma MalformedResponseRaises(fields: map<string, Json>, verdict: string, prediction: Option<string>)
    requires "response" in fields
    requires fields["response"] == JNull || (fields["response"].JStr? && Contains(fields["response"].s, "text"))
    ensures TranscribeAudio(Responded(Some(JObj(fields))), verdict, prediction) == Raised
  {
  }

  /** A reply that decodes to a number, boolean or null raises. */
  lemma ScalarReplyRaises(result: Json, verdict: string, prediction: Option<string>)
    requires result.JNull? || result.JBool? || result.JNum?
    ensures TranscribeAudio(Responded(Some(result)), verdict, prediction) == Raised
  {
  }
}
