// The application shell of App.tsx: the page id derived from the location,
// the navigation path derived from a page id, the login, registration and
// logout handlers, and the admin page guard.

module Shell {
  import opened Wrappers
  import Json
  import Router

  // ------------------------------------------------------------ page ids

  /** `getCurrentPageId`: '/' is the home page, any path beginning with '/blog'
      is the blog, and any other path is itself without its first character. */
  function PageId(path: string): string {
    if path == "/" then "home"
    else if "/blog" <= path then "blog"
    else if |path| == 0 then ""
    else path[1..]
  }

  /** The layout's `onNavigate`: 'home' goes to '/', any other page to '/' + page. */
  function PathOf(page: string): (path: string)
    ensures |path| > 0 && path[0] == '/'
  {
    if page == "home" then "/" else "/" + page
  }

  /** Navigating to a page and reading the page id back gives the page, except
      that the empty page id reads back as home and every page id beginning
      with "blog" reads back as the blog. */
  lemma NavigateThenRead(page: string)
    ensures PageId(PathOf(page)) == if page == "" then "home" else if "blog" <= page then "blog" else page
  {
    if page != "home" && page != "" {
      var path := "/" + page;
      assert path[1..] == page;
      if |page| >= 4 {
        assert path[..5] == "/" + page[..4];
      }
    }
  }

  /** A rooted path outside the blog reads as a page id that navigates back to
      it; '/home' is the one such path that navigates elsewhere, to '/'. */
  lemma ReadThenNavigate(path: string)
    requires |path| > 0 && path[0] == '/' && !("/blog" <= path)
    ensures PathOf(PageId(path)) == path <==> path != "/home"
  {
    if path != "/" {
      assert "/" + path[1..] == path;
      if path == "/home" {
        assert PathOf(PageId(path)) == "/";
      }
    }
  }

  // ------------------------------------------------------------- handlers

  /** The credentials one login attempt sends. */
  datatype Credentials = Credentials(email: string, password: string)

  /** `handleLogin` always sends the literal password 'password', whatever was
      typed into the password field. */
  function LoginRequest(email: string, typedPassword: string): (c: Credentials)
    ensures c.email == email
    ensures c.password == "password"
  {
    Credentials(email, "password")
  }

  /** The JSON body the login request carries. */
  function LoginBody(c: Credentials): Json.Value {
    Json.Object(map["email" := Json.Str(c.email), "password" := Json.Str(c.password)])
  }

  /** Since the browser always sends 'password', the server's answer does not
      depend on what was typed: a login succeeds exactly when some stored user
      has that email and the literal password 'password'. */
  lemma TypedPasswordIsIgnored(users: Router.Table, email: string, typed: string, other: string)
    ensures Router.LoginReply(users, LoginBody(LoginRequest(email, typed)))
      == Router.LoginReply(users, LoginBody(LoginRequest(email, other)))
    ensures Router.LoginReply(users, LoginBody(LoginRequest(email, typed))).status == 200 <==>
      (exists i :: 0 <= i < |users| && Router.Column(users[i], "email") == Json.Str(email)
        && Router.Column(users[i], "password") == Json.Str("password"))
  {
    var body := LoginBody(LoginRequest(email, typed));
    assert Json.ParamOf(body, "email") == Json.Str(email);
    assert Json.ParamOf(body, "password") == Json.Str("password");
    var r := Router.FirstMatch(users, Json.Str(email), Json.Str("password"));
    if r.Some? {
      assert Router.LoginMatch(users[r.value], Json.Str(email), Json.Str("password"));
    }
  }

  predicate HasRole(user: Json.Value, role: string) {
    Json.Get(user, "role") == Some(Json.Str(role))
  }

  /** Where a successful login navigates. */
  function LoginDestination(user: Json.Value): (path: string)
    ensures path == "/admin" <==> HasRole(user, "admin")
    ensures path != "/admin" ==> path == "/dashboard"
  {
    if HasRole(user, "admin") then "/admin" else "/dashboard"
  }

  /** The user `handleRegister` builds and adopts: a generated id, then the
      form's fields, then the fixed registration defaults, later fields taking
      precedence as in an object spread. */
  function RegisterPayload(stamp: string, form: map<string, Json.Value>, today: string): (payload: Json.Value)
    ensures payload.Object?
    ensures payload.fields.Keys == form.Keys + {"id", "subscription", "role", "joinDate"}
    ensures payload.fields["subscription"] == Json.Str("Free")
    ensures payload.fields["role"] == Json.Str("user")
    ensures payload.fields["joinDate"] == Json.Str(today)
    ensures "id" !in form ==> payload.fields["id"] == Json.Str("u_" + stamp)
    ensures forall k :: k in form && k != "subscription" && k != "role" && k != "joinDate" ==> payload.fields[k] == form[k]
  {
    Json.Object(map["id" := Json.Str("u_" + stamp)] + form
      + map["subscription" := Json.Str("Free"), "role" := Json.Str("user"), "joinDate" := Json.Str(today)])
  }

  /** The body `api.register(newUserPayload)` puts on the wire: `register`
      takes four parameters, so the whole payload becomes `name`, the other
      three are `undefined`, and `JSON.stringify` drops them. */
  function RegisterBodyAsWritten(payload: Json.Value): (body: Json.Value)
    ensures Json.ParamOf(body, "name") == payload
    ensures forall k :: k != "name" ==> Json.ParamOf(body, k) == Json.Null
  {
    Json.Object(map["name" := payload])
  }

  /** As written, no registration from the shell can succeed: the body carries
      no `id`, the INSERT gets a NULL key, and the server answers 500 without
      storing anything, so `handleRegister` always ends in its alert. */
  lemma AsWrittenRegistrationIsRefused(db: Router.Tables, event: Router.Event, parse: string -> Option<Json.Value>,
                                       keySet: bool, ai: Option<string>,
                                       stamp: string, form: map<string, Json.Value>, today: string)
    requires Router.Complete(db) && Router.Routed(event, Router.AuthRegister)
    requires Router.ParseBody(event, parse) == Some(RegisterBodyAsWritten(RegisterPayload(stamp, form, today)))
    ensures Router.Step(db, event, parse, true, keySet, ai).0 == db
    ensures Router.Step(db, event, parse, true, keySet, ai).1.status == 500
  {
    Router.RegisterStoresAsSent(db, event, parse, keySet, ai, RegisterBodyAsWritten(RegisterPayload(stamp, form, today)));
  }

  /** The body the registration evidently means to send: the payload itself,
      so that every column the server's INSERT reads is filled from it. */
  function RegisterBody(payload: Json.Value): (body: Json.Value)
    ensures forall k :: Json.ParamOf(body, k) == Json.ParamOf(payload, k)
  {
    payload
  }

  /** With the payload as the body, a registration is stored exactly when its
      generated id is new, and the stored row is a free, non-admin user. */
  lemma IntendedRegistrationIsStored(db: Router.Tables, event: Router.Event, parse: string -> Option<Json.Value>,
                                     keySet: bool, ai: Option<string>,
                                     stamp: string, form: map<string, Json.Value>, today: string)
    requires Router.Complete(db) && Router.Routed(event, Router.AuthRegister) && "id" !in form
    requires Router.ParseBody(event, parse) == Some(RegisterBody(RegisterPayload(stamp, form, today)))
    ensures var (db', r) := Router.Step(db, event, parse, true, keySet, ai);
      (r.status == 201 <==> !Router.HasId(db[Router.Users], Json.Str("u_" + stamp)))
      && (r.status == 201 ==>
        |db'[Router.Users]| == |db[Router.Users]| + 1
        && var row := db'[Router.Users][|db[Router.Users]|];
        Router.IdOf(row) == Json.Str("u_" + stamp)
        && row["role"] == Json.Str("user") && row["subscription"] == Json.Str("Free"))
  {
    var payload := RegisterPayload(stamp, form, today);
    assert Json.ParamOf(payload, "id") == Json.Str("u_" + stamp);
    assert Json.ParamOf(payload, "role") == Json.Str("user");
    assert Json.ParamOf(payload, "subscription") == Json.Str("Free");
    Router.RegisterStoresAsSent(db, event, parse, keySet, ai, RegisterBody(payload));
  }

  /** `AdminDashboardPage` renders only for a logged-in admin. */
  predicate AdminPageRenders(user: Option<Json.Value>) {
    user.Some? && HasRole(user.value, "admin")
  }

  /** Whatever the registration form holds, the user it creates is not an
      admin, lands on the dashboard and is not shown the admin page. */
  lemma RegisteredUserIsNotAdmin(stamp: string, form: map<string, Json.Value>, today: string)
    ensures !AdminPageRenders(Some(RegisterPayload(stamp, form, today)))
    ensures LoginDestination(RegisterPayload(stamp, form, today)) == "/dashboard"
  {
  }

  const LoginFailed: string := "Login failed: Invalid credentials or connection error."
  const RegistrationFailed: string := "Registration failed"

  /** The state `AppContent` keeps about the session. */
  class AppState {
    var user: Option<Json.Value>
    var allTransactions: seq<Json.Value>
    var allUsers: seq<Json.Value>
    /** The current location's path. */
    var location: string
    /** The alerts shown so far. */
    var alerts: seq<string>

    /** The first render: no user, empty admin lists, no alerts, and the
        location the page was opened at. */
    constructor (start: string)
      ensures user == None && allTransactions == [] && allUsers == []
      ensures location == start && alerts == []
    {
      user := None;
      allTransactions := [];
      allUsers := [];
      location := start;
      alerts := [];
    }

    /** `handleLogin`: `answer` is the value the login call resolves with, or
        `None` when it throws. A `null` answer is adopted, then reading its
        role throws, so the shell ends with no user, the alert, and no
        navigation. Returns the credentials sent. */
    method HandleLogin(email: string, typedPassword: string, answer: Option<Json.Value>) returns (sent: Credentials)
      modifies this
      ensures sent == LoginRequest(email, typedPassword)
      ensures answer.Some? && !answer.value.Null? ==>
        user == answer && location == LoginDestination(answer.value) && alerts == old(alerts)
      ensures answer == Some(Json.Null) ==> user == None && location == old(location) && alerts == old(alerts) + [LoginFailed]
      ensures answer.None? ==> user == old(user) && location == old(location) && alerts == old(alerts) + [LoginFailed]
      ensures allTransactions == old(allTransactions) && allUsers == old(allUsers)
    {
      sent := LoginRequest(email, typedPassword);
      match answer {
        case Some(u) =>
          if u.Null? {
            user := None;
            alerts := alerts + [LoginFailed];
          } else {
            user := Some(u);
            location := LoginDestination(u);
          }
        case None =>
          alerts := alerts + [LoginFailed];
      }
    }

    /** `handleRegister`: the payload is built and sent first; only if the call
        succeeds does it become the current user. Returns the request body,
        taken as `RegisterBody`, and the user adopted on success. */
    method HandleRegister(stamp: string, form: map<string, Json.Value>, today: string, succeeded: bool)
      returns (body: Json.Value, adopted: Json.Value)
      modifies this
      ensures adopted == RegisterPayload(stamp, form, today) && body == RegisterBody(adopted)
      ensures succeeded ==> user == Some(adopted) && location == "/dashboard" && alerts == old(alerts)
      ensures !succeeded ==> user == old(user) && location == old(location) && alerts == old(alerts) + [RegistrationFailed]
      ensures allTransactions == old(allTransactions) && allUsers == old(allUsers)
    {
      adopted := RegisterPayload(stamp, form, today);
      body := RegisterBody(adopted);
      if succeeded {
        user := Some(adopted);
        location := "/dashboard";
      } else {
        alerts := alerts + [RegistrationFailed];
      }
    }

    /** `handleLogout`: forgets the user and the admin lists and goes home. */
    method HandleLogout()
      modifies this
      ensures user == None && allTransactions == [] && allUsers == []
      ensures location == "/" && alerts == old(alerts)
    {
      user := None;
      allTransactions := [];
      allUsers := [];
      location := "/";
    }
  }

  /** After a logout the admin page renders nothing and the page id is home. */
  method LogoutClosesAdmin(app: AppState)
    modifies app
    ensures !AdminPageRenders(app.user)
    ensures PageId(app.location) == "home"
  {
    app.HandleLogout();
  }
}
