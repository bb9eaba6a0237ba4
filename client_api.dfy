// The browser's credential store (src/services/api.ts): the in-memory CSRF
// token `_csrfToken`, the two browser-storage keys 'csrf_token' and 'token',
// and how the authentication calls read and change them. Browser storage is a
// map field; the outcome of each `fetch` is an input.

module ClientApi {
  import opened Wrappers
  import Json

  const CsrfKey: string := "csrf_token"
  const TokenKey: string := "token"
  const JsonContent: map<string, string> := map["Content-Type" := "application/json"]

  /** How a `fetch` ended: a network failure (the promise rejects), or an HTTP
      answer whose body parses to `json` (`None` when `res.json()` rejects). */
  datatype Fetched =
    | NetworkFailure
    | Http(status: int, json: Option<Json.Value>)

  predicate Ok(status: int) {
    200 <= status < 300
  }

  /** How an async call ended: with a value, or by throwing an error whose
      message is given. */
  datatype Outcome = Returned(value: Json.Value) | Raised(message: string)

  /** One request as sent. */
  datatype Sent = Sent(path: string, headers: map<string, string>, body: map<string, Json.Value>)

  /** A string-valued, non-empty `key` field of a parsed body. */
  function StringField(v: Json.Value, key: string): (r: Option<string>)
    ensures r.Some? <==> Json.Get(v, key).Some? && Json.Get(v, key).value.Str? && Json.Get(v, key).value.s != ""
    ensures r.Some? ==> Json.Get(v, key) == Some(Json.Str(r.value))
  {
    var f := Json.Get(v, key);
    if f.Some? && f.value.Str? && f.value.s != "" then Some(f.value.s) else None
  }

  /** The headers `getHeaders` builds from the in-memory token and the storage. */
  function HeadersFor(csrf: string, storage: map<string, string>): map<string, string> {
    var h := JsonContent;
    var h := if csrf != "" then h["X-CSRF-Token" := csrf] else h;
    if TokenKey in storage && storage[TokenKey] != "" then h["Authorization" := "Bearer " + storage[TokenKey]] else h
  }

  /** The authenticated-call headers: always the JSON content type, the CSRF
      header exactly when the in-memory token is set, and a bearer header
      exactly when a token is stored; nothing else. */
  lemma HeadersSpec(csrf: string, storage: map<string, string>)
    ensures var h := HeadersFor(csrf, storage);
      h["Content-Type"] == "application/json"
      && ("X-CSRF-Token" in h <==> csrf != "")
      && ("X-CSRF-Token" in h ==> h["X-CSRF-Token"] == csrf)
      && ("Authorization" in h <==> TokenKey in storage && storage[TokenKey] != "")
      && ("Authorization" in h ==> h["Authorization"] == "Bearer " + storage[TokenKey])
      && h.Keys <= {"Content-Type", "X-CSRF-Token", "Authorization"}
  {
  }

  /** The message of the TypeError thrown by reading `field` of a `null` body. */
  function NullRead(field: string): string {
    "Cannot read properties of null (reading '" + field + "')"
  }

  /** The error an authentication call throws on a failed answer: the body's
      `error` text, or the fallback when the body has none or does not parse;
      a body that is `null` makes reading its `error` field throw instead. */
  function FailureMessage(json: Option<Json.Value>, fallback: string): (message: string)
    requires fallback != ""
    ensures message != ""
    ensures json == Some(Json.Null) ==> message == NullRead("error")
    ensures json.Some? && StringField(json.value, "error").Some? ==> message == StringField(json.value, "error").value
    ensures json != Some(Json.Null) && !(json.Some? && StringField(json.value, "error").Some?) ==> message == fallback
  {
    if json == Some(Json.Null) then NullRead("error")
    else if json.Some? && StringField(json.value, "error").Some? then StringField(json.value, "error").value
    else fallback
  }

  /** `data.user || data`. */
  function UserOf(data: Json.Value): Json.Value {
    if Json.HasTruthy(data, "user") then Json.Get(data, "user").value else data
  }

  class CredentialStore {
    /** `_csrfToken`. */
    var csrfToken: string
    /** The browser's local storage. */
    var storage: map<string, string>

    /** Module load: the in-memory token starts as the stored one, or empty. */
    constructor (initial: map<string, string>)
      ensures storage == initial
      ensures csrfToken == if CsrfKey in initial then initial[CsrfKey] else ""
    {
      storage := initial;
      csrfToken := if CsrfKey in initial then initial[CsrfKey] else "";
    }

    /** `setCsrfToken`: an empty token changes nothing; any other is kept both in
        memory and in storage. */
    method SetCsrfToken(token: string)
      modifies this
      ensures token == "" ==> csrfToken == old(csrfToken) && storage == old(storage)
      ensures token != "" ==> csrfToken == token && storage == old(storage)[CsrfKey := token]
    {
      if token != "" {
        csrfToken := token;
        storage := storage[CsrfKey := token];
      }
    }

    /** `getHeaders`. */
    method GetHeaders() returns (headers: map<string, string>)
      ensures headers == HeadersFor(csrfToken, storage)
    {
      headers := JsonContent;
      if csrfToken != "" {
        headers := headers["X-CSRF-Token" := csrfToken];
      }
      if TokenKey in storage && storage[TokenKey] != "" {
        headers := headers["Authorization" := "Bearer " + storage[TokenKey]];
      }
    }

    /** The common tail of `login` and `register`: a failed answer throws, a
        successful one adopts the returned `csrfToken` when there is one; a
        successful answer whose body is missing or `null` throws as well. */
    method AdoptSession(fetched: Fetched, fallback: string) returns (outcome: Outcome)
      requires fallback != ""
      modifies this
      ensures fetched.NetworkFailure? ==> outcome.Raised? && unchanged(this)
      ensures fetched.Http? && !Ok(fetched.status) ==>
        outcome == Raised(FailureMessage(fetched.json, fallback)) && unchanged(this)
      ensures fetched.Http? && Ok(fetched.status) && fetched.json.None? ==> outcome.Raised? && unchanged(this)
      ensures fetched.Http? && Ok(fetched.status) && fetched.json == Some(Json.Null) ==>
        outcome == Raised(NullRead("csrfToken")) && unchanged(this)
      ensures fetched.Http? && Ok(fetched.status) && fetched.json.Some? && !fetched.json.value.Null? ==>
        outcome == Returned(fetched.json.value)
        && var t := StringField(fetched.json.value, "csrfToken");
           (t.None? ==> csrfToken == old(csrfToken) && storage == old(storage))
           && (t.Some? ==> csrfToken == t.value && storage == old(storage)[CsrfKey := t.value])
    {
      match fetched {
        case NetworkFailure =>
          outcome := Raised("Failed to fetch");
        case Http(status, json) =>
          if !Ok(status) {
            outcome := Raised(FailureMessage(json, fallback));
          } else if json.None? {
            outcome := Raised("Unexpected end of JSON input");
          } else if json.value.Null? {
            outcome := Raised(NullRead("csrfToken"));
          } else {
            var t := StringField(json.value, "csrfToken");
            if t.Some? {
              SetCsrfToken(t.value);
            }
            outcome := Returned(json.value);
          }
      }
    }

    /** `login`: sends only the content type, never the stored credentials. */
    method Login(email: string, password: string, fetched: Fetched) returns (outcome: Outcome, sent: Sent)
      modifies this
      ensures sent == Sent("/auth/login", JsonContent, map["email" := Json.Str(email), "password" := Json.Str(password)])
      ensures !(fetched.Http? && Ok(fetched.status) && fetched.json.Some? && !fetched.json.value.Null?) ==>
        outcome.Raised? && unchanged(this)
      ensures fetched.Http? && !Ok(fetched.status) ==> outcome == Raised(FailureMessage(fetched.json, "Login failed"))
      ensures fetched.Http? && Ok(fetched.status) && fetched.json == Some(Json.Null) ==> outcome == Raised(NullRead("csrfToken"))
      ensures fetched.Http? && Ok(fetched.status) && fetched.json.Some? && !fetched.json.value.Null? ==>
        outcome == Returned(fetched.json.value)
        && var t := StringField(fetched.json.value, "csrfToken");
           (t.None? ==> csrfToken == old(csrfToken) && storage == old(storage))
           && (t.Some? ==> csrfToken == t.value && storage == old(storage)[CsrfKey := t.value])
    {
      sent := Sent("/auth/login", JsonContent, map["email" := Json.Str(email), "password" := Json.Str(password)]);
      outcome := AdoptSession(fetched, "Login failed");
    }

    /** `register`: the same, with the four registration fields. */
    method Register(name: string, email: string, phoneNumber: string, password: string, fetched: Fetched)
      returns (outcome: Outcome, sent: Sent)
      modifies this
      ensures sent == Sent("/auth/register", JsonContent,
        map["name" := Json.Str(name), "email" := Json.Str(email), "phoneNumber" := Json.Str(phoneNumber),
            "password" := Json.Str(password)])
      ensures !(fetched.Http? && Ok(fetched.status) && fetched.json.Some? && !fetched.json.value.Null?) ==>
        outcome.Raised? && unchanged(this)
      ensures fetched.Http? && !Ok(fetched.status) ==> outcome == Raised(FailureMessage(fetched.json, "Registration failed"))
      ensures fetched.Http? && Ok(fetched.status) && fetched.json == Some(Json.Null) ==> outcome == Raised(NullRead("csrfToken"))
      ensures fetched.Http? && Ok(fetched.status) && fetched.json.Some? && !fetched.json.value.Null? ==>
        outcome == Returned(fetched.json.value)
        && var t := StringField(fetched.json.value, "csrfToken");
           (t.None? ==> csrfToken == old(csrfToken) && storage == old(storage))
           && (t.Some? ==> csrfToken == t.value && storage == old(storage)[CsrfKey := t.value])
    {
      sent := Sent("/auth/register", JsonContent,
        map["name" := Json.Str(name), "email" := Json.Str(email), "phoneNumber" := Json.Str(phoneNumber),
            "password" := Json.Str(password)]);
      outcome := AdoptSession(fetched, "Registration failed");
    }

    /** `logout`: sends the current headers, then, whatever the answer or
        failure, forgets the CSRF token and removes both stored keys. */
    method Logout(fetched: Fetched) returns (sent: Sent)
      modifies this
      ensures sent == Sent("/auth/logout", HeadersFor(old(csrfToken), old(storage)), map[])
      ensures csrfToken == "" && storage == old(storage) - {CsrfKey, TokenKey}
    {
      var headers := GetHeaders();
      sent := Sent("/auth/logout", headers, map[]);
      csrfToken := "";
      storage := storage - {CsrfKey, TokenKey};
    }

    /** `getCurrentUser`: on success adopts the returned CSRF token and yields
        `data.user`, or `data` itself; a 401 or 403 clears every token; any
        other failure, and any exception, changes nothing and yields null. */
    method GetCurrentUser(fetched: Fetched) returns (user: Option<Json.Value>, sent: Sent)
      modifies this
      ensures sent == Sent("/auth/me", HeadersFor(old(csrfToken), old(storage)), map[])
      ensures fetched.Http? && Ok(fetched.status) && fetched.json.Some? && !fetched.json.value.Null? ==>
        user == Some(UserOf(fetched.json.value))
        && var t := StringField(fetched.json.value, "csrfToken");
           (t.None? ==> csrfToken == old(csrfToken) && storage == old(storage))
           && (t.Some? ==> csrfToken == t.value && storage == old(storage)[CsrfKey := t.value])
      ensures fetched.Http? && (fetched.status == 401 || fetched.status == 403) ==>
        user.None? && csrfToken == "" && storage == old(storage) - {CsrfKey, TokenKey}
      ensures (|| fetched.NetworkFailure?
               || (fetched.Http? && !Ok(fetched.status) && fetched.status != 401 && fetched.status != 403)
               || (fetched.Http? && Ok(fetched.status) && (fetched.json.None? || fetched.json.value.Null?))) ==>
        user.None? && unchanged(this)
    {
      var headers := GetHeaders();
      sent := Sent("/auth/me", headers, map[]);
      user := None;
      match fetched {
        case NetworkFailure =>
        case Http(status, json) =>
          if Ok(status) {
            if json.Some? && !json.value.Null? {
              var t := StringField(json.value, "csrfToken");
              if t.Some? {
                SetCsrfToken(t.value);
              }
              user := Some(UserOf(json.value));
            }
          } else if status == 401 || status == 403 {
            csrfToken := "";
            storage := storage - {CsrfKey, TokenKey};
          }
      }
    }

    /** `getPredictions`, `getTransactions`, `getBlogPosts`, `getUsers`: a failed
        answer is an empty list. */
    method GetList(path: string, fetched: Fetched) returns (outcome: Outcome, sent: Sent)
      ensures sent == Sent(path, HeadersFor(csrfToken, storage), map[])
      ensures fetched.Http? && !Ok(fetched.status) ==> outcome == Returned(Json.Array([]))
      ensures fetched.Http? && Ok(fetched.status) && fetched.json.Some? ==> outcome == Returned(fetched.json.value)
      ensures fetched.NetworkFailure? || (fetched.Http? && Ok(fetched.status) && fetched.json.None?) ==> outcome.Raised?
    {
      var headers := GetHeaders();
      sent := Sent(path, headers, map[]);
      match fetched {
        case NetworkFailure => outcome := Raised("Failed to fetch");
        case Http(status, json) =>
          if !Ok(status) {
            outcome := Returned(Json.Array([]));
          } else if json.None? {
            outcome := Raised("Unexpected end of JSON input");
          } else {
            outcome := Returned(json.value);
          }
      }
    }
  }

  /** After a logout, whatever the server said, the next authenticated call
      carries neither a CSRF header nor a bearer header. */
  method LogoutThenHeaders(store: CredentialStore, fetched: Fetched) returns (headers: map<string, string>)
    modifies store
    ensures headers == JsonContent
  {
    var _ := store.Logout(fetched);
    headers := store.GetHeaders();
    assert TokenKey !in store.storage;
  }
}
