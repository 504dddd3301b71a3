/**
 * The analysis service of ai_service.py: a keyword classifier that labels a
 * chat message with an intent, a parameter extractor that is still a stub, and
 * the request validation of the `/analyze` endpoint.
 */
module AiService {
  import opened Wrappers
  import opened Text

  const BalanceWords: seq<string> := ["balance", "how much", "check"]
  const SwapWords: seq<string> := ["swap", "exchange", "trade"]
  const BridgeWords: seq<string> := ["bridge", "transfer", "send"]

  /** The labels `detect_intent` can return. */
  const Intents: set<string> := {"balance", "swap", "bridge", "unknown"}

  /** `any(word in message for word in words)`. */
  predicate AnyIn(words: seq<string>, message: string)
  {
    exists k :: 0 <= k < |words| && Contains(message, words[k])
  }

  /** Some word of `words` occurs at some position of `text`. */
  ghost predicate Mentions(text: string, words: seq<string>)
  {
    exists k, i :: 0 <= k < |words| && OccursAt(text, words[k], i)
  }

  lemma AnyInIff(words: seq<string>, text: string)
    ensures AnyIn(words, text) <==> Mentions(text, words)
  {
    forall k | 0 <= k < |words| ensures Contains(text, words[k]) <==> exists i :: OccursAt(text, words[k], i) {
      ContainsIff(text, words[k]);
    }
  }

  /**
   * `detect_intent`: lower-case the message, then test the balance, swap and
   * bridge keywords in that order; the first group with a match decides.
   */
  function DetectIntent(message: string): (intent: string)
    ensures intent in Intents
  {
    var m := Lower(message);
    if AnyIn(BalanceWords, m) then "balance"
    else if AnyIn(SwapWords, m) then "swap"
    else if AnyIn(BridgeWords, m) then "bridge"
    else "unknown"
  }

  /**
   * Each label is given exactly when its keyword group occurs in the
   * lower-cased message and no group tested before it does.
   */
  lemma DetectIntentByKeyword(message: string)
    ensures var m := Lower(message);
      && (DetectIntent(message) == "balance" <==> Mentions(m, BalanceWords))
      && (DetectIntent(message) == "swap" <==> !Mentions(m, BalanceWords) && Mentions(m, SwapWords))
      && (DetectIntent(message) == "bridge" <==>
            !Mentions(m, BalanceWords) && !Mentions(m, SwapWords) && Mentions(m, BridgeWords))
  {
    var m := Lower(message);
    AnyInIff(BalanceWords, m);
    AnyInIff(SwapWords, m);
    AnyInIff(BridgeWords, m);
  }

  /** A word of a joined list occurs exactly when a word of one of the two parts does. */
  lemma MentionsConcat(text: string, a: seq<string>, b: seq<string>)
    ensures Mentions(text, a + b) <==> Mentions(text, a) || Mentions(text, b)
  {
    if Mentions(text, a + b) {
      var k, i :| 0 <= k < |a + b| && OccursAt(text, (a + b)[k], i);
      if k >= |a| {
        assert OccursAt(text, b[k - |a|], i);
      }
    }
    if Mentions(text, a) {
      var k, i :| 0 <= k < |a| && OccursAt(text, a[k], i);
      assert OccursAt(text, (a + b)[k], i);
    }
    if Mentions(text, b) {
      var k, i :| 0 <= k < |b| && OccursAt(text, b[k], i);
      assert OccursAt(text, (a + b)[k + |a|], i);
    }
  }

  /** The label is "unknown" exactly when none of the nine keywords occurs. */
  lemma DetectIntentUnknown(message: string)
    ensures DetectIntent(message) == "unknown" <==> !Mentions(Lower(message), BalanceWords + SwapWords + BridgeWords)
  {
    var m := Lower(message);
    DetectIntentByKeyword(message);
    MentionsConcat(m, BalanceWords + SwapWords, BridgeWords);
    MentionsConcat(m, BalanceWords, SwapWords);
  }

  /** Lower-casing the message first does not change its label. */
  lemma DetectIntentCaseInsensitive(message: string)
    ensures DetectIntent(Lower(message)) == DetectIntent(message)
  {
    LowerIdempotent(message);
  }

  /** A JSON value, as `request.get_json` returns it (numbers as reals). */
  datatype Json =
    | JNull
    | JBool(b: bool)
    | JNum(n: real)
    | JStr(s: string)
    | JArr(items: seq<Json>)
    | JObj(fields: map<string, Json>)

  /** Python's truth value of the decoded JSON value. */
  predicate Truthy(j: Json)
  {
    match j
    case JNull => false
    case JBool(b) => b
    case JNum(n) => n != 0.0
    case JStr(s) => s != ""
    case JArr(items) => items != []
    case JObj(fields) => fields != map[]
  }

  /** The `parameters` of a response: Python's None becomes JSON null. */
  datatype Parameters = Parameters(amount: Json, fromToken: Json, toToken: Json)

  /** `extract_parameters`: nothing is extracted yet, whatever the message. */
  function ExtractParameters(message: string): (p: Parameters)
    ensures p.amount == JNull && p.fromToken == JNull && p.toToken == JNull
  {
    Parameters(JNull, JNull, JNull)
  }

  /** What `/analyze` answers to a POST. */
  datatype Analysis =
    | Analyzed(response: string, intent: string, parameters: Parameters)  // status 200
    | BadRequest(error: string)                                           // status 400
    | ServerError                                                         // status 500; the exception text is not modelled

  function Status(a: Analysis): int
  {
    match a
    case Analyzed(_, _, _) => 200
    case BadRequest(_) => 400
    case ServerError => 500
  }

  /** `data.get('message')` on a decoded JSON object. */
  function Field(fields: map<string, Json>, key: string): Json
  {
    if key in fields then fields[key] else JNull
  }

  /** The message of a well-formed request: a JSON object whose `message` is a non-empty string. */
  predicate HasMessage(body: Option<Json>)
  {
    body.Some? && body.value.JObj? && Field(body.value.fields, "message").JStr?
      && Field(body.value.fields, "message").s != ""
  }

  /**
   * The POST branch of `analyze_message`. `body` is None when the request body
   * is not JSON at all: `get_json(force=True)` then raises inside the `try`.
   * A truthy body that is not an object has no `.get`, and a truthy message
   * that is not a string has no `.lower()`; both raise into the 500 reply.
   */
  function AnalyzeMessage(body: Option<Json>): (r: Analysis)
    ensures r == BadRequest("No data provided") <==> body.Some? && !Truthy(body.value)
    ensures r == BadRequest("No message provided") <==>
      body.Some? && body.value.JObj? && body.value.fields != map[] && !Truthy(Field(body.value.fields, "message"))
    ensures r.Analyzed? <==> HasMessage(body)
    ensures Status(r) == 500 <==>
      || body.None?
      || (Truthy(body.value) && !body.value.JObj?)
      || (body.value.JObj? && Truthy(Field(body.value.fields, "message")) && !Field(body.value.fields, "message").JStr?)
    ensures HasMessage(body) ==>
      var message := Field(body.value.fields, "message").s;
      r == Analyzed("I understand you said: " + message, DetectIntent(message), ExtractParameters(message))
  {
    match body
    case None => ServerError
    case Some(data) =>
      if !Truthy(data) then BadRequest("No data provided")
      else if !data.JObj? then ServerError
      else
        var message := Field(data.fields, "message");
        if !Truthy(message) then BadRequest("No message provided")
        else if !message.JStr? then ServerError
        else Analyzed("I understand you said: " + message.s, DetectIntent(message.s), ExtractParameters(message.s))
  }
}
