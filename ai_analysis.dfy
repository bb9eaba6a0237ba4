// The serverless AI-analysis endpoint (netlify/functions/ai-analysis.ts):
// bearer-token extraction, then a fixed ladder of early returns that decides
// the status of every request before the model is called. Token verification,
// JSON parsing and the model call are parameters: their outcomes are inputs.

module AiAnalysis {
  import opened Wrappers
  import Json

  // ------------------------------------------------------------ the token

  /** `headers['authorization'] || headers['Authorization']`, then the falsy
      check: an empty lowercase header falls back to the capitalised one, and an
      empty result counts as no header. */
  function AuthHeader(headers: map<string, string>): (h: Option<string>)
    ensures h.Some? ==> h.value != ""
    ensures "authorization" in headers && headers["authorization"] != "" ==> h == Some(headers["authorization"])
    ensures h.None? <==>
      ("authorization" !in headers || headers["authorization"] == "") &&
      ("Authorization" !in headers || headers["Authorization"] == "")
  {
    if "authorization" in headers && headers["authorization"] != "" then Some(headers["authorization"])
    else if "Authorization" in headers && headers["Authorization"] != "" then Some(headers["Authorization"])
    else None
  }

  /** The length of the text before the first space (all of it if none). */
  function WordLength(s: string): (n: nat)
    ensures n <= |s|
    ensures forall k :: 0 <= k < n ==> s[k] != ' '
    ensures n < |s| ==> s[n] == ' '
  {
    if s == [] || s[0] == ' ' then 0 else 1 + WordLength(s[1..])
  }

  /** `s.split(' ')[1]`: the text between the first and the second space (or
      the end); `None` is `undefined`, when the string has no space. */
  function SecondWord(s: string): (w: Option<string>)
    ensures w.None? <==> ' ' !in s
    ensures w.Some? ==> ' ' !in w.value
  {
    var n := WordLength(s);
    if n == |s| then
      assert forall c :: c in s ==> c != ' ';
      None
    else
      var rest := s[n + 1..];
      Some(rest[..WordLength(rest)])
  }

  /** A word split off at the first space is exactly that word. */
  lemma {:induction false} WordLengthOfWord(a: string, rest: string)
    requires ' ' !in a
    requires rest == [] || rest[0] == ' '
    ensures WordLength(a + rest) == |a|
  {
    var s := a + rest;
    assert forall k :: 0 <= k < |a| ==> s[k] == a[k] && s[k] != ' ';
    if |a| < |s| {
      assert s[|a|] == ' ';
    }
  }

  /** Section 2.1 of RFC 6750: for `scheme token rest`, where neither the scheme
      nor the token holds a space, the token is the second word. */
  lemma {:induction false} SecondWordOfBearer(scheme: string, token: string, rest: string)
    requires ' ' !in scheme && ' ' !in token
    requires rest == [] || rest[0] == ' '
    ensures SecondWord(scheme + " " + token + rest) == Some(token)
  {
    var s := scheme + " " + token + rest;
    assert s == scheme + (" " + token + rest);
    WordLengthOfWord(scheme, " " + token + rest);
    assert s[|scheme| + 1..] == token + rest;
    WordLengthOfWord(token, rest);
    assert (token + rest)[..|token|] == token;
  }

  /** The signing secret: `JWT_SECRET` when it is set and not empty, the
      built-in 'secret-key' otherwise. */
  function Secret(env: map<string, string>): (secret: string)
    ensures secret != ""
    ensures "JWT_SECRET" in env && env["JWT_SECRET"] != "" ==> secret == env["JWT_SECRET"]
    ensures !("JWT_SECRET" in env && env["JWT_SECRET"] != "") ==> secret == "secret-key"
  {
    if "JWT_SECRET" in env && env["JWT_SECRET"] != "" then env["JWT_SECRET"] else "secret-key"
  }

  /** `verifyToken`: the decoded claims, or `None` when there is no header, no
      second word, or the verifier rejects the token under the secret.
      `verify(secret, token)` is `jwt.verify`, `None` when it throws. */
  function Authenticate(headers: map<string, string>, env: map<string, string>,
                        verify: (string, string) -> Option<Json.Value>): (claims: Option<Json.Value>)
    ensures AuthHeader(headers).None? || SecondWord(AuthHeader(headers).value).None? ==> claims.None?
    ensures AuthHeader(headers).Some? && SecondWord(AuthHeader(headers).value).Some? ==>
      claims == verify(Secret(env), SecondWord(AuthHeader(headers).value).value)
  {
    match AuthHeader(headers)
    case None => None
    case Some(h) =>
      match SecondWord(h)
      case None => None
      case Some(token) => verify(Secret(env), token)
  }

  /** Without `JWT_SECRET`, a token signed with the built-in secret is accepted:
      the claims are whatever the verifier decodes under 'secret-key'. */
  lemma DefaultSecretAccepts(headers: map<string, string>, env: map<string, string>,
                             verify: (string, string) -> Option<Json.Value>)
    requires "JWT_SECRET" !in env || env["JWT_SECRET"] == ""
    requires AuthHeader(headers).Some? && SecondWord(AuthHeader(headers).value).Some?
    ensures Authenticate(headers, env, verify) == verify("secret-key", SecondWord(AuthHeader(headers).value).value)
  {
  }

  // ------------------------------------------------------- required fields

  const RequiredFields: seq<string> := ["league", "homeTeam", "awayTeam", "date", "tip"]

  /** The validation loop over the required fields: the first one that is absent
      or falsy, or `None` when all are present. */
  function FirstMissing(body: Json.Value, fields: seq<string>): (missing: Option<string>)
    ensures missing.None? <==> forall i :: 0 <= i < |fields| ==> Json.HasTruthy(body, fields[i])
    ensures missing.Some? ==> exists i :: 0 <= i < |fields| && fields[i] == missing.value
                                         && !Json.HasTruthy(body, fields[i])
                                         && forall j :: 0 <= j < i ==> Json.HasTruthy(body, fields[j])
  {
    if fields == [] then None
    else if !Json.HasTruthy(body, fields[0]) then Some(fields[0])
    else
      var r := FirstMissing(body, fields[1..]);
      if r.Some? then
        var i :| 0 <= i < |fields| - 1 && fields[1..][i] == r.value && !Json.HasTruthy(body, fields[1..][i])
          && forall j :: 0 <= j < i ==> Json.HasTruthy(body, fields[1..][j]);
        assert fields[i + 1] == r.value;
        r
      else
        r
  }

  // -------------------------------------------------------------- handler

  datatype Event = Event(httpMethod: string, body: Option<string>, headers: map<string, string>)

  /** How the model call ended: with its text (empty when it has none), or by
      throwing an error with the given name, status and message. */
  datatype Generation =
    | Generated(text: string)
    | Threw(name: string, status: Option<int>, message: string)

  datatype Reply = Reply(status: int, body: map<string, Json.Value>)

  const Fallback: string := "Analysis temporarily unavailable. Please try again."
  const ModelName: string := "gemini-2.0-flash-exp"

  function ErrorReply(status: int, message: string): Reply {
    Reply(status, map["error" := Json.Str(message)])
  }

  /** The outer `catch`: 500, with the error's own message only in development. */
  function Crash(env: map<string, string>, message: string): (r: Reply)
    ensures r.status == 500
    ensures "message" in r.body <==> "NODE_ENV" in env && env["NODE_ENV"] == "development"
    ensures "message" in r.body ==> r.body["message"] == Json.Str(message)
  {
    var base := map["error" := Json.Str("Failed to generate analysis. Please try again later.")];
    if "NODE_ENV" in env && env["NODE_ENV"] == "development" then
      Reply(500, base["message" := Json.Str(message)])
    else
      Reply(500, base)
  }

  /** An environment variable that is set and not empty. */
  predicate EnvSet(env: map<string, string>, key: string) {
    key in env && env[key] != ""
  }

  predicate IsPremium(claims: Json.Value) {
    Json.Get(claims, "subscription") == Some(Json.Str("Premium"))
  }

  /** The handler. `parse` is `JSON.parse` (`None` when it throws), `outcome`
      the end of the model call, `now` the timestamp of a successful answer. */
  function Handle(event: Event, env: map<string, string>, verify: (string, string) -> Option<Json.Value>,
                  parse: string -> Option<Json.Value>, outcome: Generation, now: string): (r: Reply)
    ensures r.status in {200, 400, 401, 403, 405, 429, 500, 504}
  {
    if event.httpMethod == "OPTIONS" then Reply(200, map[])
    else if event.httpMethod != "POST" then ErrorReply(405, "Method not allowed")
    else Guarded(event, env, verify, parse, outcome, now)
  }

  /** Steps 1 to 3 of a POST: authentication, the Premium check, the body. */
  function Guarded(event: Event, env: map<string, string>, verify: (string, string) -> Option<Json.Value>,
                   parse: string -> Option<Json.Value>, outcome: Generation, now: string): (r: Reply)
    ensures r.status in {200, 400, 401, 403, 429, 500, 504}
  {
    var claims := Authenticate(event.headers, env, verify);
    if claims.None? || !Json.Truthy(claims.value) then ErrorReply(401, "Unauthorized. Please log in.")
    else if !IsPremium(claims.value) then
      Reply(403, map["error" := Json.Str("Premium subscription required for AI analysis"),
                     "upgradeUrl" := Json.Str("/pricing")])
    else if event.body.None? || event.body.value == "" then ErrorReply(400, "Request body is required")
    else
      match parse(event.body.value)
      case None => Crash(env, "invalid JSON")
      case Some(prediction) => Validated(prediction, env, outcome, now)
  }

  /** Steps 4 and 5: the required fields (reading a field of `null` throws),
      then the API key. */
  function Validated(prediction: Json.Value, env: map<string, string>, outcome: Generation, now: string): (r: Reply)
    ensures r.status in {200, 400, 429, 500, 504}
  {
    if prediction.Null? then Crash(env, "Cannot read properties of null")
    else
      match FirstMissing(prediction, RequiredFields)
      case Some(field) => ErrorReply(400, "Missing required field: " + field)
      case None =>
        if !EnvSet(env, "GEMINI_API_KEY") then
          ErrorReply(500, "AI service temporarily unavailable. Please contact support.")
        else Answer(env, outcome, now)
  }

  /** Steps 8 and 9: the model's answer or the mapping of its error. */
  function Answer(env: map<string, string>, outcome: Generation, now: string): (r: Reply)
    ensures r.status in {200, 429, 500, 504}
  {
    match outcome
    case Generated(text) =>
      Reply(200, map["analysis" := Json.Str(if text == "" then Fallback else text),
                     "generatedAt" := Json.Str(now), "model" := Json.Str(ModelName)])
    case Threw(name, status, message) =>
      if name == "AbortError" then ErrorReply(504, "AI analysis timed out. Please try again.")
      else if status == Some(429) then ErrorReply(429, "Too many AI requests. Please try again in a moment.")
      else Crash(env, message)
  }

  // ---------------------------------------------------- the ladder, stated

  /** The checks after the method, each as the handler reads it. */
  predicate Authorised(event: Event, env: map<string, string>, verify: (string, string) -> Option<Json.Value>) {
    var c := Authenticate(event.headers, env, verify);
    c.Some? && Json.Truthy(c.value)
  }

  predicate Premium(event: Event, env: map<string, string>, verify: (string, string) -> Option<Json.Value>) {
    var c := Authenticate(event.headers, env, verify);
    c.Some? && IsPremium(c.value)
  }

  predicate HasBody(event: Event) {
    event.body.Some? && event.body.value != ""
  }

  /** The body parses to a value whose five required fields are all truthy. */
  predicate WellFormed(event: Event, parse: string -> Option<Json.Value>)
    requires HasBody(event)
  {
    var p := parse(event.body.value);
    p.Some? && !p.value.Null? && FirstMissing(p.value, RequiredFields).None?
  }

  /** Preflight and method: OPTIONS is answered before anything else is looked
      at, and every other method but POST is refused. */
  lemma MethodGate(event: Event, env: map<string, string>, verify: (string, string) -> Option<Json.Value>,
                   parse: string -> Option<Json.Value>, outcome: Generation, now: string)
    ensures event.httpMethod == "OPTIONS" ==> Handle(event, env, verify, parse, outcome, now) == Reply(200, map[])
    ensures Handle(event, env, verify, parse, outcome, now).status == 405 <==>
      event.httpMethod != "OPTIONS" && event.httpMethod != "POST"
  {
  }

  /** The earliest failing check decides the status: 401 exactly when the
      request is not authorised, 403 exactly when it is but not Premium, and the
      body and key checks only ever run for an authorised Premium request. */
  lemma LadderOrder(event: Event, env: map<string, string>, verify: (string, string) -> Option<Json.Value>,
                    parse: string -> Option<Json.Value>, outcome: Generation, now: string)
    requires event.httpMethod == "POST"
    ensures var r := Handle(event, env, verify, parse, outcome, now);
      (r.status == 401 <==> !Authorised(event, env, verify))
      && (r.status == 403 <==> Authorised(event, env, verify) && !Premium(event, env, verify))
      && (Authorised(event, env, verify) && Premium(event, env, verify) && !HasBody(event) ==>
            r == ErrorReply(400, "Request body is required"))
      && (r.status == 400 ==> Authorised(event, env, verify) && Premium(event, env, verify))
  {
    var c := Authenticate(event.headers, env, verify);
    if c.Some? && IsPremium(c.value) {
      assert Json.Truthy(c.value);
    }
  }

  /** A missing field is reported by name, the first missing one in the order
      league, homeTeam, awayTeam, date, tip; a missing API key is the last check
      and only reached with a complete request. */
  lemma FieldAndKeyChecks(event: Event, env: map<string, string>, verify: (string, string) -> Option<Json.Value>,
                          parse: string -> Option<Json.Value>, outcome: Generation, now: string)
    requires event.httpMethod == "POST" && Premium(event, env, verify) && HasBody(event)
    requires parse(event.body.value).Some? && !parse(event.body.value).value.Null?
    ensures var p := parse(event.body.value).value;
      var r := Handle(event, env, verify, parse, outcome, now);
      (FirstMissing(p, RequiredFields).Some? ==>
        r == ErrorReply(400, "Missing required field: " + FirstMissing(p, RequiredFields).value))
      && (FirstMissing(p, RequiredFields).None? && !EnvSet(env, "GEMINI_API_KEY") ==>
        r == ErrorReply(500, "AI service temporarily unavailable. Please contact support."))
  {
    var c := Authenticate(event.headers, env, verify);
    assert Json.Truthy(c.value);
  }

  /** A 200 answer to a POST means every check passed and the model produced
      text; the analysis is that text, or the fallback when it is empty. */
  lemma SuccessNeedsEveryCheck(event: Event, env: map<string, string>, verify: (string, string) -> Option<Json.Value>,
                               parse: string -> Option<Json.Value>, outcome: Generation, now: string)
    requires event.httpMethod == "POST"
    ensures var r := Handle(event, env, verify, parse, outcome, now);
      r.status == 200 <==>
        Premium(event, env, verify) && HasBody(event) && WellFormed(event, parse)
        && EnvSet(env, "GEMINI_API_KEY") && outcome.Generated?
    ensures var r := Handle(event, env, verify, parse, outcome, now);
      r.status == 200 ==> r.body["analysis"] == Json.Str(if outcome.text == "" then Fallback else outcome.text)
  {
    var c := Authenticate(event.headers, env, verify);
    if c.Some? && IsPremium(c.value) {
      assert Json.Truthy(c.value);
      if HasBody(event) && parse(event.body.value).Some? {
        ValidatedSuccess(parse(event.body.value).value, env, outcome, now);
      }
    }
  }

  /** The last two stages answer 200 exactly when the value is complete, the key
      is set and the model produced text. */
  lemma ValidatedSuccess(prediction: Json.Value, env: map<string, string>, outcome: Generation, now: string)
    ensures Validated(prediction, env, outcome, now).status == 200 <==>
      !prediction.Null? && FirstMissing(prediction, RequiredFields).None? && EnvSet(env, "GEMINI_API_KEY")
      && outcome.Generated?
    ensures Validated(prediction, env, outcome, now).status == 200 ==>
      Validated(prediction, env, outcome, now).body["analysis"] == Json.Str(if outcome.text == "" then Fallback else outcome.text)
  {
  }

  /** Model failures: an AbortError is a timeout whatever its status, a 429 is
      passed on, and anything else is a 500 whose detail shows only in
      development. */
  lemma GenerationFailures(event: Event, env: map<string, string>, verify: (string, string) -> Option<Json.Value>,
                           parse: string -> Option<Json.Value>, name: string, status: Option<int>,
                           message: string, now: string)
    requires event.httpMethod == "POST" && Premium(event, env, verify) && HasBody(event)
    requires WellFormed(event, parse) && EnvSet(env, "GEMINI_API_KEY")
    ensures var r := Handle(event, env, verify, parse, Threw(name, status, message), now);
      (r.status == 504 <==> name == "AbortError")
      && (r.status == 429 <==> name != "AbortError" && status == Some(429))
      && (r.status == 500 <==> name != "AbortError" && status != Some(429))
      && (r.status == 500 ==> r == Crash(env, message))
  {
    var c := Authenticate(event.headers, env, verify);
    assert Json.Truthy(c.value);
  }
}
