// The browser's AI-analysis client (services/geminiService.ts): it sends the
// five match fields with the stored bearer token and turns the endpoint's
// answer into the text shown on the card. The stored token and the result of
// `fetch` are inputs.

module Gemini {
  import opened Wrappers
  import opened Types
  import Json
  import AiAnalysis

  const LogInFirst: string := "Please log in to access AI analysis."
  const SessionExpired: string := "Your session has expired. Please log in again."
  const NeedPremium: string := "Premium subscription required for AI analysis. Upgrade to unlock this feature!"
  const TooMany: string := "Too many AI requests. Please wait a moment and try again."
  const TimedOut: string := "AI analysis timed out. Please try again."
  const ServerFallback: string := "AI Analysis temporarily unavailable. Please try again later."
  const ContentFallback: string := "Analysis generated successfully but content unavailable."
  const NetworkError: string := "Network error. Please check your internet connection."
  const Unavailable: string := "AI Analysis is temporarily unavailable. Please try again later."

  /** What the page sends: the authorization header and the body. */
  datatype Request = Request(authorization: string, payload: map<string, Json.Value>)

  /** How the `fetch` ended: an answer whose body parses to `json` (`None` when
      `response.json()` throws), or a thrown error with its name and message. */
  datatype Fetched =
    | Answered(status: int, json: Option<Json.Value>)
    | FetchThrew(name: string, message: string)

  /** The outcome of one call: the value the promise resolves with, and the
      request made, if any. */
  datatype Call = Call(result: Json.Value, request: Option<Request>)

  /** `s.includes(part)`: `part` occurs somewhere in `s`. */
  predicate Contains(s: string, part: string)
    decreases |s|
  {
    part <= s || (|s| > 0 && Contains(s[1..], part))
  }

  /** The request body: exactly the five match fields. */
  function Payload(p: Prediction): (payload: map<string, Json.Value>)
    ensures payload.Keys == {"league", "homeTeam", "awayTeam", "date", "tip"}
    ensures payload["league"] == Json.Str(p.league) && payload["homeTeam"] == Json.Str(p.homeTeam)
    ensures payload["awayTeam"] == Json.Str(p.awayTeam) && payload["date"] == Json.Str(p.date)
    ensures payload["tip"] == Json.Str(p.tip)
  {
    map["league" := Json.Str(p.league), "homeTeam" := Json.Str(p.homeTeam), "awayTeam" := Json.Str(p.awayTeam),
        "date" := Json.Str(p.date), "tip" := Json.Str(p.tip)]
  }

  /** `v.key || fallback` on a parsed body; reading a field of `null` throws. */
  function FieldOr(v: Json.Value, key: string, fallback: string): Json.Value {
    if v.Null? then Json.Str(Unavailable)
    else if Json.HasTruthy(v, key) then Json.Get(v, key).value
    else Json.Str(fallback)
  }

  /** The answer of the endpoint turned into the text shown, checked in the
      order 401, 403, 429, 504, any other failure, success. What is shown is
      never empty: every branch ends in a truthy value or a fixed message. */
  function Interpret(fetched: Fetched): (shown: Json.Value)
    ensures Json.Truthy(shown)
    ensures fetched.Answered? && fetched.status in {401, 403, 429, 504} ==>
      shown == Json.Str(match fetched.status
        case 401 => SessionExpired
        case 403 => NeedPremium
        case 429 => TooMany
        case _ => TimedOut)
  {
    match fetched
    case FetchThrew(name, message) =>
      if name == "TypeError" && Contains(message, "fetch") then Json.Str(NetworkError) else Json.Str(Unavailable)
    case Answered(status, json) =>
      if status == 401 then Json.Str(SessionExpired)
      else if status == 403 then Json.Str(NeedPremium)
      else if status == 429 then Json.Str(TooMany)
      else if status == 504 then Json.Str(TimedOut)
      else match json
        case None => Json.Str(Unavailable)
        case Some(body) =>
          if !(200 <= status < 300) then FieldOr(body, "error", ServerFallback)
          else FieldOr(body, "analysis", ContentFallback)
  }

  /** Past the four named statuses: a body that does not parse, or is `null`
      (reading its field throws), shows the unavailable notice; a failure shows
      the body's truthy `error`, else the server fallback; a success shows the
      body's truthy `analysis`, else the content fallback. */
  lemma InterpretBody(status: int, json: Option<Json.Value>)
    requires status !in {401, 403, 429, 504}
    ensures json.None? || json == Some(Json.Null) ==> Interpret(Answered(status, json)) == Json.Str(Unavailable)
    ensures json.Some? && !json.value.Null? && !(200 <= status < 300) ==>
      Interpret(Answered(status, json)) ==
        if Json.HasTruthy(json.value, "error") then Json.Get(json.value, "error").value else Json.Str(ServerFallback)
    ensures json.Some? && !json.value.Null? && 200 <= status < 300 ==>
      Interpret(Answered(status, json)) ==
        if Json.HasTruthy(json.value, "analysis") then Json.Get(json.value, "analysis").value else Json.Str(ContentFallback)
  {
  }

  /** A thrown error is a network error exactly when it is a TypeError whose
      message mentions `fetch`; any other is the unavailable notice. */
  lemma InterpretThrown(name: string, message: string)
    ensures Interpret(FetchThrew(name, message)) == Json.Str(NetworkError) <==> name == "TypeError" && Contains(message, "fetch")
    ensures Interpret(FetchThrew(name, message)) != Json.Str(NetworkError) ==> Interpret(FetchThrew(name, message)) == Json.Str(Unavailable)
  {
  }

  /** `generateMatchAnalysis`: without a stored token it answers at once and
      sends nothing; otherwise it sends the payload with the bearer token. */
  function GenerateMatchAnalysis(token: Option<string>, p: Prediction, fetched: Fetched): (call: Call)
    ensures token.None? || token == Some("") <==> call.request.None?
    ensures call.request.None? ==> call.result == Json.Str(LogInFirst)
    ensures call.request.Some? ==>
      call.request.value == Request("Bearer " + token.value, Payload(p)) && call.result == Interpret(fetched)
  {
    if token.None? || token.value == "" then Call(Json.Str(LogInFirst), None)
    else Call(Interpret(fetched), Some(Request("Bearer " + token.value, Payload(p))))
  }

  /** The payload passes the endpoint's required-field check exactly when none
      of the five match fields is empty. */
  lemma PayloadMeetsServerCheck(p: Prediction)
    ensures AiAnalysis.FirstMissing(Json.Object(Payload(p)), AiAnalysis.RequiredFields).None? <==>
      p.league != "" && p.homeTeam != "" && p.awayTeam != "" && p.date != "" && p.tip != ""
  {
    var v := Json.Object(Payload(p));
    var fs := AiAnalysis.RequiredFields;
    assert fs[0] == "league" && fs[1] == "homeTeam" && fs[2] == "awayTeam" && fs[3] == "date" && fs[4] == "tip";
    assert Json.HasTruthy(v, "league") <==> p.league != "";
    assert Json.HasTruthy(v, "tip") <==> p.tip != "";
  }

  /** The bearer header the client builds carries the stored token as its
      second word, which is where the endpoint looks for it. */
  lemma ServerReadsClientToken(token: string)
    requires token != "" && ' ' !in token
    ensures AiAnalysis.AuthHeader(map["Authorization" := "Bearer " + token]) == Some("Bearer " + token)
    ensures AiAnalysis.SecondWord("Bearer " + token) == Some(token)
  {
    AiAnalysis.SecondWordOfBearer("Bearer", token, "");
    assert "Bearer" + " " + token + "" == "Bearer " + token;
  }

  /** An endpoint error other than the four named statuses is shown with the
      endpoint's own message. */
  lemma ClientShowsServerError(status: int, message: string)
    requires !(200 <= status < 300) && status !in {401, 403, 429, 504} && message != ""
    ensures Interpret(Answered(status, Some(Json.Object(AiAnalysis.ErrorReply(status, message).body)))) == Json.Str(message)
  {
  }

  /** A successful endpoint answer always carries a non-empty analysis (the
      model's text, or the endpoint's own fallback), and the client shows it
      as it is. */
  lemma SuccessIsShownVerbatim(env: map<string, string>, text: string, now: string)
    ensures var r := AiAnalysis.Answer(env, AiAnalysis.Generated(text), now);
      Interpret(Answered(r.status, Some(Json.Object(r.body)))) == r.body["analysis"]
      && r.body["analysis"] == Json.Str(if text == "" then AiAnalysis.Fallback else text)
  {
  }

  /** `isAIAnalysisAvailable`: only the exact string 'Premium'. */
  predicate IsAIAnalysisAvailable(subscription: string) {
    subscription == "Premium"
  }

  /** The client's availability test, the endpoint's Premium check and the
      tier name agree: only a Premium subscription passes each of them. */
  lemma AvailabilityAgreesWithServer(claims: map<string, Json.Value>, t: Tier)
    ensures IsAIAnalysisAvailable(TierName(t)) <==> t == Premium
    ensures AiAnalysis.IsPremium(Json.Object(claims)) <==>
      "subscription" in claims && claims["subscription"].Str? && IsAIAnalysisAvailable(claims["subscription"].s)
  {
  }

  /** `getAIAnalysisQuota`: nothing without a token, nothing on a failed or
      unparsable answer, and the parsed body otherwise; the flag says whether a
      request was made. */
  function Quota(token: Option<string>, fetched: Fetched): (r: (Option<Json.Value>, bool))
    ensures token.None? || token == Some("") ==> r == (None, false)
    ensures r.0.Some? ==> fetched.Answered? && 200 <= fetched.status < 300 && r.0 == fetched.json
    ensures token.Some? && token.value != "" ==>
      r.1 && (fetched.Answered? && 200 <= fetched.status < 300 ==> r.0 == fetched.json)
  {
    if token.None? || token.value == "" then (None, false)
    else match fetched
      case Answered(status, json) => if 200 <= status < 300 then (json, true) else (None, true)
      case FetchThrew(_, _) => (None, true)
  }
}
