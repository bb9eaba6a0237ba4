// The serverless data API (netlify/functions/api.ts): path normalisation, the
// method and path dispatch, and what each route does to the four tables.
// The database is a class holding one sequence of rows per table, each row a
// map from column to value; the connection, JSON parsing and the model call are
// inputs.

module Router {
  import opened Wrappers
  import Json

  // --------------------------------------------------------------- strings

  /** `pat` occurs in `s` at position `i`. */
  predicate OccursAt(s: string, pat: string, i: int) {
    0 <= i && i + |pat| <= |s| && s[i..i + |pat|] == pat
  }

  /** The position of the first occurrence of `pat` in `s`, as `indexOf` finds it. */
  function Find(s: string, pat: string): (r: Option<nat>)
    ensures r.Some? ==> OccursAt(s, pat, r.value) && forall j :: 0 <= j < r.value ==> !OccursAt(s, pat, j)
    ensures r.None? ==> forall j :: !OccursAt(s, pat, j)
    decreases |s|
  {
    if |s| < |pat| then None
    else if pat <= s then
      assert s[0..|pat|] == pat;
      Some(0)
    else
      assert !OccursAt(s, pat, 0);
      TailOccursAll(s, pat);
      match Find(s[1..], pat)
      case None => None
      case Some(i) => Some(i + 1)
  }

  /** An occurrence past the first character is an occurrence in the tail. */
  lemma TailOccurs(s: string, pat: string, j: int)
    requires |s| > 0 && j >= 1
    ensures OccursAt(s, pat, j) <==> OccursAt(s[1..], pat, j - 1)
  {
    if j + |pat| <= |s| {
      assert s[1..][j - 1..j - 1 + |pat|] == s[j..j + |pat|];
    }
  }

  lemma TailOccursAll(s: string, pat: string)
    requires |s| > 0
    ensures forall j :: j >= 1 ==> (OccursAt(s, pat, j) <==> OccursAt(s[1..], pat, j - 1))
  {
    forall j | j >= 1
      ensures OccursAt(s, pat, j) <==> OccursAt(s[1..], pat, j - 1)
    {
      TailOccurs(s, pat, j);
    }
  }

  /** `s.replace(pat, '')` with a string pattern: only the first occurrence is
      removed. */
  function RemoveFirst(s: string, pat: string): (r: string)
    ensures Find(s, pat).None? ==> r == s
    ensures Find(s, pat).Some? ==> var i := Find(s, pat).value; r == s[..i] + s[i + |pat|..]
    ensures Find(s, pat).Some? ==> |r| == |s| - |pat|
  {
    match Find(s, pat)
    case None => s
    case Some(i) => s[..i] + s[i + |pat|..]
  }

  const FunctionPrefix: string := "/.netlify/functions/api"
  const DevPrefix: string := "/api"

  /** The route path: the function prefix removed, then the first '/api'. */
  function NormalisePath(path: string): string {
    RemoveFirst(RemoveFirst(path, FunctionPrefix), DevPrefix)
  }

  /** Moving a match past a prefix. */
  lemma ShiftOccurs(a: string, r: string, pat: string, j: int)
    requires j >= 0
    ensures OccursAt(a + r, pat, j + |a|) <==> OccursAt(r, pat, j)
  {
    if j + |pat| <= |r| {
      assert (a + r)[j + |a|..j + |a| + |pat|] == r[j..j + |pat|];
    }
  }

  /** `pat` does not occur in `s`. */
  ghost predicate Free(s: string, pat: string) {
    forall j :: !OccursAt(s, pat, j)
  }

  /** A pattern that occurs nowhere in `r` and starts nowhere inside the
      prefix `a` occurs nowhere in `a + r`. */
  lemma NoMatchAfterPrefix(a: string, r: string, pat: string)
    requires forall j :: 0 <= j < |a| ==> !OccursAt(a + r, pat, j)
    requires Free(r, pat)
    ensures Free(a + r, pat)
  {
    forall j | |a| <= j
      ensures !OccursAt(a + r, pat, j)
    {
      ShiftOccurs(a, r, pat, j - |a|);
    }
  }

  /** A prefix is removed by removing its first occurrence. */
  lemma RemovePrefix(p: string, r: string)
    ensures RemoveFirst(p + r, p) == r
  {
    assert OccursAt(p + r, p, 0) by {
      assert (p + r)[0..|p|] == p;
    }
    assert (p + r)[|p|..] == r;
  }

  /** The paths the browser sends: the function prefix in production and '/api'
      in development, both followed by a route that holds neither prefix. Both
      normalise to that route. */
  lemma ClientPathsNormalise(route: string)
    requires Free(route, FunctionPrefix) && Free(route, DevPrefix)
    ensures NormalisePath(FunctionPrefix + route) == route
    ensures NormalisePath(DevPrefix + route) == route
  {
    RemovePrefix(FunctionPrefix, route);
    assert Find(route, DevPrefix).None?;
    var s := DevPrefix + route;
    forall j | 0 <= j < |DevPrefix|
      ensures !OccursAt(s, FunctionPrefix, j)
    {
      assert s[j] == DevPrefix[j];
      if j + |FunctionPrefix| <= |s| {
        assert s[j..j + |FunctionPrefix|][0] == s[j];
        assert s[j..j + |FunctionPrefix|][1] == s[j + 1];
        assert s[1] == 'a';
      }
    }
    NoMatchAfterPrefix(DevPrefix, route, FunctionPrefix);
    RemovePrefix(DevPrefix, route);
  }

  // -------------------------------------------------------------- dispatch

  datatype TableName = Predictions | Users | Transactions | BlogPosts

  /** The route a request takes. */
  datatype Route =
    | Analyze
    | AuthLogin
    | AuthRegister
    | List(table: TableName)
    | Insert(table: TableName)
    | Update(table: TableName)
    | Remove(table: TableName)
    | NoRoute

  /** The resource a path names, with or without a trailing slash. */
  function ResourceOf(path: string): (r: Option<TableName>)
    ensures r == Some(Predictions) <==> path == "/predictions" || path == "/predictions/"
    ensures r == Some(Users) <==> path == "/users" || path == "/users/"
    ensures r == Some(Transactions) <==> path == "/transactions" || path == "/transactions/"
    ensures r == Some(BlogPosts) <==> path == "/blog" || path == "/blog/"
  {
    if path == "/predictions" || path == "/predictions/" then Some(Predictions)
    else if path == "/users" || path == "/users/" then Some(Users)
    else if path == "/transactions" || path == "/transactions/" then Some(Transactions)
    else if path == "/blog" || path == "/blog/" then Some(BlogPosts)
    else None
  }

  /** The methods each resource answers: every one lists; predictions,
      transactions and posts take new rows; predictions, users and transactions
      take updates; predictions, users and posts take deletions. */
  function ActionOn(table: TableName, httpMethod: string): (r: Route)
    ensures r != Analyze && r != AuthLogin && r != AuthRegister
    ensures r != NoRoute ==> r.table == table
  {
    if httpMethod == "GET" then List(table)
    else if httpMethod == "POST" && table != Users then Insert(table)
    else if httpMethod == "PUT" && table != BlogPosts then Update(table)
    else if httpMethod == "DELETE" && table != Transactions then Remove(table)
    else NoRoute
  }

  /** The dispatch of a normalised path, in the order the handler tests it. */
  function Dispatch(httpMethod: string, path: string): Route {
    if path == "/analyze" && httpMethod == "POST" then Analyze
    else if path == "/auth/login" && httpMethod == "POST" then AuthLogin
    else if path == "/auth/register" && httpMethod == "POST" then AuthRegister
    else match ResourceOf(path)
      case None => NoRoute
      case Some(t) => ActionOn(t, httpMethod)
  }

  function ResourcePath(table: TableName): string {
    match table
    case Predictions => "/predictions"
    case Users => "/users"
    case Transactions => "/transactions"
    case BlogPosts => "/blog"
  }

  /** A trailing slash names the same resource, for every method. */
  lemma TrailingSlashIsIgnored(table: TableName, httpMethod: string)
    ensures Dispatch(httpMethod, ResourcePath(table) + "/") == Dispatch(httpMethod, ResourcePath(table))
    ensures Dispatch(httpMethod, ResourcePath(table)) == ActionOn(table, httpMethod)
  {
    match table {
      case Predictions => assert ResourcePath(table) + "/" == "/predictions/";
      case Users => assert ResourcePath(table) + "/" == "/users/";
      case Transactions => assert ResourcePath(table) + "/" == "/transactions/";
      case BlogPosts => assert ResourcePath(table) + "/" == "/blog/";
    }
  }

  /** Exactly which method and resource pairs have a route. */
  lemma RoutedPairs(table: TableName, httpMethod: string)
    ensures ActionOn(table, httpMethod) != NoRoute <==>
      httpMethod == "GET"
      || (httpMethod == "POST" && table != Users)
      || (httpMethod == "PUT" && table != BlogPosts)
      || (httpMethod == "DELETE" && table != Transactions)
  {
  }

  /** The browser updates and deletes single items at '/resource/<id>', but the
      router only knows the bare resource paths: every such request, whatever
      its method, falls through to 'Route not found'. */
  lemma ItemPathsAreNotRouted(table: TableName, httpMethod: string, id: string)
    requires id != ""
    ensures Dispatch(httpMethod, ResourcePath(table) + "/" + id) == NoRoute
  {
    var r := ResourcePath(table);
    var p := r + "/" + id;
    assert |p| >= |r| + 2 && p[1] == r[1];
    assert ResourceOf(p).None?;
  }

  // ---------------------------------------------------------------- tables

  /** A row of a table: column name to value; a column absent from the map is
      NULL. */
  type Row = map<string, Json.Value>

  /** A table: its rows, in the order the database keeps them. */
  type Table = seq<Row>

  /** A column's value; an absent column reads as NULL. */
  function Column(row: Row, col: string): (v: Json.Value)
    ensures col !in row ==> v == Json.Null
    ensures col in row ==> v == row[col]
  {
    if col in row then row[col] else Json.Null
  }

  function IdOf(row: Row): Json.Value {
    Column(row, "id")
  }

  /** Some row of `t` has this id. */
  predicate HasId(t: Table, id: Json.Value) {
    exists i :: 0 <= i < |t| && IdOf(t[i]) == id
  }

  /** The primary key: no row has a NULL id and no two rows share one. */
  predicate Keyed(t: Table) {
    t == [] || (IdOf(t[0]) != Json.Null && !HasId(t[1..], IdOf(t[0])) && Keyed(t[1..]))
  }

  /** `Keyed`, stated row by row. */
  lemma {:induction false} KeyedIds(t: Table)
    requires Keyed(t)
    ensures forall i :: 0 <= i < |t| ==> IdOf(t[i]) != Json.Null
    ensures forall i, j :: 0 <= i < j < |t| ==> IdOf(t[i]) != IdOf(t[j])
  {
    if t != [] {
      KeyedIds(t[1..]);
      forall i, j | 0 <= i < j < |t|
        ensures IdOf(t[i]) != IdOf(t[j])
      {
        if i > 0 {
          assert t[i] == t[1..][i - 1] && t[j] == t[1..][j - 1];
        } else {
          assert t[j] == t[1..][j - 1];
        }
      }
      forall i | 0 <= i < |t|
        ensures IdOf(t[i]) != Json.Null
      {
        if i > 0 {
          assert t[i] == t[1..][i - 1];
        }
      }
    }
  }

  /** Appending a row whose id is new and not NULL keeps the key. */
  lemma {:induction false} KeyedAppend(t: Table, row: Row)
    requires Keyed(t) && IdOf(row) != Json.Null && !HasId(t, IdOf(row))
    ensures Keyed(t + [row])
  {
    if t == [] {
      assert (t + [row])[1..] == [];
    } else {
      var u := t + [row];
      assert u[0] == t[0] && u[1..] == t[1..] + [row];
      assert IdOf(row) != IdOf(t[0]);
      assert forall i :: 0 <= i < |t[1..]| ==> t[1..][i] == t[i + 1];
      KeyedAppend(t[1..], row);
      assert forall i :: 0 <= i < |t[1..]| ==> u[1..][i] == t[1..][i];
      assert u[1..][|t[1..]|] == row;
    }
  }

  /** The row an INSERT writes: each column holds the body field it names, and
      a field the body lacks becomes NULL, as the driver sends `undefined`. */
  function RowFrom(body: Json.Value, columns: map<string, string>): (row: Row)
    ensures row.Keys == columns.Keys
    ensures forall c :: c in columns ==> row[c] == Json.ParamOf(body, columns[c])
  {
    map c | c in columns :: Json.ParamOf(body, columns[c])
  }

  /** The INSERT column lists, each column with the body field that fills it. */
  function InsertColumns(table: TableName): (columns: map<string, string>)
    ensures "id" in columns && columns["id"] == "id"
  {
    match table
    case Predictions => map["id" := "id", "league" := "league", "home_team" := "homeTeam", "away_team" := "awayTeam",
                            "date" := "date", "time" := "time", "tip" := "tip", "odds" := "odds",
                            "confidence" := "confidence", "min_tier" := "minTier", "status" := "status",
                            "result" := "result", "tipster_id" := "tipsterId"]
    case Users => map["id" := "id", "name" := "name", "email" := "email", "phone_number" := "phoneNumber",
                      "password" := "password", "subscription" := "subscription", "role" := "role",
                      "join_date" := "joinDate"]
    case Transactions => map["id" := "id", "user_id" := "userId", "user_name" := "userName", "plan_id" := "planId",
                             "amount" := "amount", "method" := "method", "status" := "status", "date" := "date",
                             "receipt_url" := "receiptUrl"]
    case BlogPosts => map["id" := "id", "title" := "title", "excerpt" := "excerpt", "content" := "content",
                          "author" := "author", "date" := "date", "image_url" := "imageUrl", "tier" := "tier"]
  }

  /** INSERT: the row goes after the others. A NULL id, or one already
      present, is refused (`None`), as the primary key refuses it. */
  function InsertRow(t: Table, row: Row): (r: Option<Table>)
    requires Keyed(t)
    ensures r.None? <==> IdOf(row) == Json.Null || HasId(t, IdOf(row))
    ensures r.Some? ==> r.value == t + [row] && Keyed(r.value)
  {
    if IdOf(row) == Json.Null || HasId(t, IdOf(row)) then None
    else
      KeyedAppend(t, row);
      Some(t + [row])
  }

  /** `UPDATE … SET <changes> WHERE id = <id>`: the rows with that id get the
      new column values; NULL matches no row. The id itself is never among the
      changes, so every row keeps its id and the key is kept. */
  function UpdateColumns(t: Table, id: Json.Value, changes: Row): (r: Table)
    requires "id" !in changes
    ensures |r| == |t|
    ensures forall i :: 0 <= i < |t| ==> IdOf(r[i]) == IdOf(t[i])
    ensures forall i :: 0 <= i < |t| && (id == Json.Null || IdOf(t[i]) != id) ==> r[i] == t[i]
    ensures forall i :: 0 <= i < |t| && id != Json.Null && IdOf(t[i]) == id ==> r[i] == t[i] + changes
    ensures Keyed(t) ==> Keyed(r)
    decreases |t|
  {
    if t == [] then []
    else
      var rest := UpdateColumns(t[1..], id, changes);
      var r := [if id != Json.Null && IdOf(t[0]) == id then t[0] + changes else t[0]] + rest;
      assert r[1..] == rest;
      assert forall i :: 1 <= i < |t| ==> r[i] == rest[i - 1] && t[i] == t[1..][i - 1];
      r
  }

  /** `DELETE … WHERE id = <id>`: the rows are taken in table order and each
      one goes exactly when it has that id. */
  function DeleteRow(t: Table, id: Json.Value): (r: Table)
    ensures |r| <= |t|
    decreases |t|
  {
    if t == [] then [] else (if IdOf(t[0]) == id then [] else [t[0]]) + DeleteRow(t[1..], id)
  }

  /** Exactly the rows with that id go. */
  lemma {:induction false} DeleteRowMembers(t: Table, id: Json.Value)
    ensures forall x :: x in DeleteRow(t, id) <==> x in t && IdOf(x) != id
    decreases |t|
  {
    if t != [] {
      DeleteRowMembers(t[1..], id);
      assert forall x :: x in t <==> x == t[0] || x in t[1..];
    }
  }

  /** NULL, or an id no row has, removes nothing. */
  lemma {:induction false} DeleteRowAbsent(t: Table, id: Json.Value)
    requires !HasId(t, id)
    ensures DeleteRow(t, id) == t
    decreases |t|
  {
    if t != [] {
      assert IdOf(t[0]) != id;
      DeleteRowAbsent(t[1..], id);
      assert [t[0]] + t[1..] == t;
    }
  }

  /** The primary key still holds after a deletion. */
  lemma {:induction false} DeleteRowKeyed(t: Table, id: Json.Value)
    requires Keyed(t)
    ensures Keyed(DeleteRow(t, id))
    decreases |t|
  {
    if t != [] {
      var rest := DeleteRow(t[1..], id);
      DeleteRowKeyed(t[1..], id);
      if IdOf(t[0]) != id {
        DeleteRowMembers(t[1..], id);
        var r := [t[0]] + rest;
        assert DeleteRow(t, id) == r;
        assert r[0] == t[0] && r[1..] == rest;
        assert forall i :: 0 <= i < |rest| ==> rest[i] in t[1..];
      } else {
        assert DeleteRow(t, id) == [] + rest == rest;
      }
    }
  }

  /** The deletion works row by row in table order: deleting from two pieces
      of a table is deleting from each piece and joining them, so the kept
      rows keep their order. */
  lemma {:induction false} DeleteRowKeepsOrder(a: Table, b: Table, id: Json.Value)
    ensures DeleteRow(a + b, id) == DeleteRow(a, id) + DeleteRow(b, id)
    decreases |a|
  {
    if a == [] {
      assert a + b == b;
    } else {
      assert (a + b)[0] == a[0] && (a + b)[1..] == a[1..] + b;
      DeleteRowKeepsOrder(a[1..], b, id);
      var keep: Table := if IdOf(a[0]) == id then [] else [a[0]];
      assert keep + (DeleteRow(a[1..], id) + DeleteRow(b, id)) == (keep + DeleteRow(a[1..], id)) + DeleteRow(b, id);
    }
  }

  /** A single row goes exactly when it has the id. */
  lemma DeleteRowOfOne(x: Row, id: Json.Value)
    ensures DeleteRow([x], id) == if IdOf(x) == id then [] else [x]
  {
    assert [x][1..] == [];
  }






  /** The SET clause of each PUT, read from the body. */
  function UpdateChanges(table: TableName, body: Json.Value): (changes: Row)
    ensures "id" !in changes
    ensures table == Predictions ==> changes.Keys == {"status", "result"}
    ensures table == Users ==> changes.Keys == {"subscription", "subscription_expiry_date"}
    ensures table == Transactions ==> changes.Keys == {"status"}
  {
    match table
    case Predictions => map["status" := Json.ParamOf(body, "status"), "result" := Json.ParamOf(body, "result")]
    case Users => map["subscription" := Json.ParamOf(body, "subscription"),
                      "subscription_expiry_date" := Json.ParamOf(body, "subscriptionExpiryDate")]
    case Transactions => map["status" := Json.ParamOf(body, "status")]
    case BlogPosts => map[]
  }

  /** The camel-case copies a listing adds to every row, each with the column
      it copies. */
  function Aliases(table: TableName): map<string, string> {
    match table
    case Predictions => map["homeTeam" := "home_team", "awayTeam" := "away_team", "minTier" := "min_tier",
                            "tipsterId" := "tipster_id"]
    case Users => map["phoneNumber" := "phone_number", "joinDate" := "join_date",
                      "subscriptionExpiryDate" := "subscription_expiry_date"]
    case Transactions => map["userId" := "user_id", "userName" := "user_name", "planId" := "plan_id",
                             "receiptUrl" := "receipt_url"]
    case BlogPosts => map["imageUrl" := "image_url"]
  }

  /** A row as the API returns it: its columns, plus each alias holding the
      value of the column it copies. */
  function Exposed(row: Row, aliases: map<string, string>): (out: Row)
    ensures out.Keys == row.Keys + aliases.Keys
    ensures forall a :: a in aliases ==> out[a] == Column(row, aliases[a])
    ensures forall c :: c in row && c !in aliases ==> out[c] == row[c]
  {
    row + map a | a in aliases :: Column(row, aliases[a])
  }

  /** A user whose email and password both equal the given values; NULL
      equals nothing. */
  predicate LoginMatch(row: Row, email: Json.Value, password: Json.Value) {
    email != Json.Null && password != Json.Null && Column(row, "email") == email && Column(row, "password") == password
  }

  /** The first row of `t` that matches, if any. */
  function FirstMatch(t: Table, email: Json.Value, password: Json.Value): (r: Option<nat>)
    ensures r.None? <==> forall i :: 0 <= i < |t| ==> !LoginMatch(t[i], email, password)
    ensures r.Some? ==> r.value < |t| && LoginMatch(t[r.value], email, password)
    ensures r.Some? ==> forall i :: 0 <= i < r.value ==> !LoginMatch(t[i], email, password)
    decreases |t|
  {
    if t == [] then None
    else if LoginMatch(t[0], email, password) then Some(0)
    else
      assert forall i :: 1 <= i < |t| ==> t[i] == t[1..][i - 1];
      match FirstMatch(t[1..], email, password)
      case None => None
      case Some(i) => Some(i + 1)
  }

  /** A SELECT's answer: every row in table order, each with its aliases. */
  function Listed(t: Table, n: TableName): (rows: seq<Row>)
    ensures |rows| == |t|
    ensures forall i :: 0 <= i < |t| ==> rows[i] == Exposed(t[i], Aliases(n))
  {
    seq(|t|, i requires 0 <= i < |t| => Exposed(t[i], Aliases(n)))
  }

  // -------------------------------------------------------------- requests

  datatype Event = Event(httpMethod: string, path: string, body: Option<string>, query: map<string, string>)

  datatype Body = Empty | Doc(value: Json.Value) | Rows(rows: seq<Row>)

  datatype Response = Response(status: int, body: Body)

  function Message(status: int, text: string): Response {
    Response(status, Doc(Json.Object(map["message" := Json.Str(text)])))
  }

  /** The outer `catch`. */
  function Failure(detail: string): Response {
    Response(500, Doc(Json.Object(map["message" := Json.Str("Internal Server Error"), "details" := Json.Str(detail)])))
  }

  /** `JSON.parse(event.body)`; a missing body parses as `null`. */
  function ParseBody(event: Event, parse: string -> Option<Json.Value>): Option<Json.Value> {
    if event.body.None? then Some(Json.Null) else parse(event.body.value)
  }

  /** `event.queryStringParameters?.id`, as the parameter it becomes. */
  function QueryId(event: Event): (id: Json.Value)
    ensures "id" !in event.query ==> id == Json.Null
  {
    if "id" in event.query then Json.Str(event.query["id"]) else Json.Null
  }

  /** The transaction PUT answers `{ id, status }`, where an undefined field is
      dropped when serialised. */
  function IdAndStatus(body: Json.Value): Json.Value {
    var withId := if Json.Get(body, "id").Some? then map["id" := Json.Get(body, "id").value] else map[];
    Json.Object(if Json.Get(body, "status").Some? then withId["status" := Json.Get(body, "status").value] else withId)
  }

  /** The database state: one table per name. */
  type Tables = map<TableName, Table>

  /** Every table is present and keeps its primary key. */
  predicate Complete(db: Tables) {
    forall n: TableName :: n in db && Keyed(db[n])
  }

  /** POST /analyze: the configured key decides before anything is parsed;
      `ai` is the model's text, or `None` when the call throws. */
  function AnalyzeReply(event: Event, parse: string -> Option<Json.Value>, keySet: bool, ai: Option<string>): (r: Response)
    ensures !keySet ==> r == Message(503, "Server API configuration missing")
    ensures r.status in {200, 500, 503}
  {
    if !keySet then Message(503, "Server API configuration missing")
    else match ParseBody(event, parse)
      case None => Failure("invalid JSON")
      case Some(v) =>
        if v.Null? || Json.ParamOf(v, "prediction") == Json.Null then Failure("Cannot read properties of undefined")
        else match ai
          case None => Failure("model call failed")
          case Some(text) => Response(200, Doc(Json.Object(map["analysis" := Json.Str(text)])))
  }

  /** What a routed database request does: the new tables and the answer. */
  function Execute(db: Tables, route: Route, event: Event, parse: string -> Option<Json.Value>, path: string): (r: (Tables, Response))
    requires Complete(db)
    ensures Complete(r.0)
    ensures r.1.status == 500 ==> r.0 == db
  {
    match route
    case Analyze => (db, Message(404, "Route not found: " + path))
    case NoRoute => (db, Message(404, "Route not found: " + path))
    case List(n) => (db, Response(200, Rows(Listed(db[n], n))))
    case Remove(n) =>
      DeleteRowKeyed(db[n], QueryId(event));
      (db[n := DeleteRow(db[n], QueryId(event))], Message(200, "Deleted"))
    case _ =>
      match ParseBody(event, parse)
      case None => (db, Failure("invalid JSON"))
      case Some(body) =>
        if body.Null? then (db, Failure("Cannot destructure null"))
        else WithBody(db, route, body)
  }

  function WithBody(db: Tables, route: Route, body: Json.Value): (r: (Tables, Response))
    requires Complete(db) && !body.Null?
    requires route.AuthLogin? || route.AuthRegister? || route.Insert? || route.Update?
    ensures Complete(r.0)
    ensures r.1.status == 500 ==> r.0 == db
  {
    match route
    case AuthLogin => (db, LoginReply(db[Users], body))
    case AuthRegister => InsertInto(db, Users, body)
    case Insert(n) => InsertInto(db, n, body)
    case Update(n) =>
      var db' := db[n := UpdateColumns(db[n], Json.ParamOf(body, "id"), UpdateChanges(n, body))];
      (db', Response(200, Doc(if n == Transactions then IdAndStatus(body) else body)))
  }

  /** `SELECT * FROM users WHERE email = $1 AND password = $2`: the first
      matching user, formatted, or 401. */
  function LoginReply(users: Table, body: Json.Value): (r: Response)
    ensures r.status == 200 || r == Message(401, "Invalid credentials")
  {
    match FirstMatch(users, Json.ParamOf(body, "email"), Json.ParamOf(body, "password"))
    case None => Message(401, "Invalid credentials")
    case Some(i) => Response(200, Doc(Json.Object(Exposed(users[i], Aliases(Users)))))
  }

  function InsertInto(db: Tables, n: TableName, body: Json.Value): (r: (Tables, Response))
    requires Complete(db)
    ensures Complete(r.0)
    ensures r.1.status == 500 ==> r.0 == db
  {
    match InsertRow(db[n], RowFrom(body, InsertColumns(n)))
    case None => (db, Failure("duplicate or null key"))
    case Some(t) => (db[n := t], Response(201, Doc(body)))
  }

  /** The whole handler. `dbUp` says whether the connection opens; `keySet`
      whether the model key is configured. */
  function Step(db: Tables, event: Event, parse: string -> Option<Json.Value>, dbUp: bool, keySet: bool,
                ai: Option<string>): (r: (Tables, Response))
    requires Complete(db)
    ensures Complete(r.0)
  {
    if event.httpMethod == "OPTIONS" then (db, Response(200, Empty))
    else
      var path := NormalisePath(event.path);
      var route := Dispatch(event.httpMethod, path);
      if route == Analyze then (db, AnalyzeReply(event, parse, keySet, ai))
      else if !dbUp then (db, Message(503, "Database unavailable"))
      else Execute(db, route, event, parse, path)
  }

  // ---------------------------------------------------------- the database

  class Database {
    var tables: Tables

    predicate Valid()
      reads this
    {
      Complete(tables)
    }

    constructor (initial: Tables)
      requires Complete(initial)
      ensures Valid() && tables == initial
    {
      tables := initial;
    }

    /** One request: the tables change and the answer is given as `Step`
        describes. */
    method Handle(event: Event, parse: string -> Option<Json.Value>, dbUp: bool, keySet: bool, ai: Option<string>)
      returns (response: Response)
      requires Valid()
      modifies this
      ensures Valid()
      ensures (tables, response) == Step(old(tables), event, parse, dbUp, keySet, ai)
    {
      if event.httpMethod == "OPTIONS" {
        return Response(200, Empty);
      }
      var path := NormalisePath(event.path);
      var route := Dispatch(event.httpMethod, path);
      if route == Analyze {
        return AnalyzeReply(event, parse, keySet, ai);
      }
      if !dbUp {
        return Message(503, "Database unavailable");
      }
      if route.List? {
        var n := route.table;
        response := Response(200, Rows(Listed(tables[n], n)));
      } else if route.Remove? {
        var n := route.table;
        DeleteRowKeyed(tables[n], QueryId(event));
        tables := tables[n := DeleteRow(tables[n], QueryId(event))];
        response := Message(200, "Deleted");
      } else if route.NoRoute? {
        response := Message(404, "Route not found: " + path);
      } else {
        var parsed := ParseBody(event, parse);
        if parsed.None? {
          return Failure("invalid JSON");
        }
        var body := parsed.value;
        if body.Null? {
          return Failure("Cannot destructure null");
        }
        var outcome := WithBody(tables, route, body);
        tables, response := outcome.0, outcome.1;
      }
    }
  }

  // ----------------------------------------------------------- properties

  /** A preflight is answered before anything else, with an empty body. */
  lemma PreflightFirst(db: Tables, event: Event, parse: string -> Option<Json.Value>, dbUp: bool, keySet: bool,
                       ai: Option<string>)
    requires Complete(db) && event.httpMethod == "OPTIONS"
    ensures Step(db, event, parse, dbUp, keySet, ai) == (db, Response(200, Empty))
  {
  }

  /** POST /analyze never needs the database and never changes it; without a
      key it is refused with 503. Every other request meets 503 when the
      database is unreachable, and changes nothing then. */
  lemma DatabaseDependence(db: Tables, event: Event, parse: string -> Option<Json.Value>, keySet: bool,
                           ai: Option<string>)
    requires Complete(db) && event.httpMethod != "OPTIONS"
    ensures var route := Dispatch(event.httpMethod, NormalisePath(event.path));
      (route == Analyze ==>
        Step(db, event, parse, false, keySet, ai) == Step(db, event, parse, true, keySet, ai)
        && Step(db, event, parse, true, keySet, ai).0 == db
        && (!keySet ==> Step(db, event, parse, true, keySet, ai).1.status == 503))
      && (route != Analyze ==> Step(db, event, parse, false, keySet, ai) == (db, Message(503, "Database unavailable")))
  {
  }

  /** An unknown route is answered 404 with the normalised path in the
      message, and changes nothing. */
  lemma UnknownRoute(db: Tables, event: Event, parse: string -> Option<Json.Value>, keySet: bool, ai: Option<string>)
    requires Complete(db) && event.httpMethod != "OPTIONS"
    requires Dispatch(event.httpMethod, NormalisePath(event.path)) == NoRoute
    ensures Step(db, event, parse, true, keySet, ai) == (db, Message(404, "Route not found: " + NormalisePath(event.path)))
  {
  }

  /** The request whose route is given reaches `Execute` with a working database. */
  predicate Routed(event: Event, route: Route) {
    event.httpMethod != "OPTIONS" && Dispatch(event.httpMethod, NormalisePath(event.path)) == route
  }

  /** Login: 200 with the first user whose row matches both the email and the
      password sent, 401 when none does; nothing changes. */
  lemma LoginRule(db: Tables, event: Event, parse: string -> Option<Json.Value>, keySet: bool, ai: Option<string>, body: Json.Value)
    requires Complete(db) && Routed(event, AuthLogin)
    requires ParseBody(event, parse) == Some(body) && !body.Null?
    ensures var (db', r) := Step(db, event, parse, true, keySet, ai);
      var email, password := Json.ParamOf(body, "email"), Json.ParamOf(body, "password");
      db' == db
      && (r.status == 200 <==> exists i :: 0 <= i < |db[Users]| && LoginMatch(db[Users][i], email, password))
      && (r.status == 200 ==> exists i :: (0 <= i < |db[Users]| && LoginMatch(db[Users][i], email, password)
            && (forall j :: 0 <= j < i ==> !LoginMatch(db[Users][j], email, password))
            && r.body == Doc(Json.Object(Exposed(db[Users][i], Aliases(Users))))))
      && (r.status != 200 ==> r == Message(401, "Invalid credentials"))
  {
  }

  /** Register stores the row as the client sent it, role and subscription
      included: whatever those fields say is what the new row holds. */
  lemma RegisterStoresAsSent(db: Tables, event: Event, parse: string -> Option<Json.Value>, keySet: bool, ai: Option<string>, body: Json.Value)
    requires Complete(db) && Routed(event, AuthRegister)
    requires ParseBody(event, parse) == Some(body) && !body.Null?
    ensures var (db', r) := Step(db, event, parse, true, keySet, ai);
      var id := Json.ParamOf(body, "id");
      (r.status == 201 <==> id != Json.Null && !HasId(db[Users], id))
      && (r.status == 201 ==>
        |db'[Users]| == |db[Users]| + 1 && db'[Users][..|db[Users]|] == db[Users]
        && var row := db'[Users][|db[Users]|];
        IdOf(row) == id && row["role"] == Json.ParamOf(body, "role")
        && row["subscription"] == Json.ParamOf(body, "subscription")
        && (forall n :: n != Users ==> db'[n] == db[n]))
      && (r.status != 201 ==> db' == db && r.status == 500)
  {
    var row := RowFrom(body, InsertColumns(Users));
    assert InsertColumns(Users)["role"] == "role" && InsertColumns(Users)["subscription"] == "subscription";
    assert IdOf(row) == Json.ParamOf(body, "id");
    assert (db[Users] + [row])[..|db[Users]|] == db[Users];
  }

  /** A PUT changes only the stated columns of the row with the given id, in
      that one table; every other table, row and column stays as it was. */
  lemma UpdateTouchesOnlyStatedColumns(db: Tables, event: Event, parse: string -> Option<Json.Value>, keySet: bool,
                                       ai: Option<string>, n: TableName, body: Json.Value)
    requires Complete(db) && Routed(event, Update(n))
    requires ParseBody(event, parse) == Some(body) && !body.Null?
    ensures var (db', r) := Step(db, event, parse, true, keySet, ai);
      var id, t, t' := Json.ParamOf(body, "id"), db[n], db'[n];
      r.status == 200
      && (forall m :: m != n ==> db'[m] == db[m])
      && |t'| == |t|
      && (forall i :: 0 <= i < |t| && IdOf(t[i]) != id ==> t'[i] == t[i])
      && (forall i :: 0 <= i < |t| && IdOf(t[i]) == id ==>
            t'[i].Keys == t[i].Keys + UpdateChanges(n, body).Keys
            && forall c :: c in t[i] && c !in UpdateChanges(n, body) ==> t'[i][c] == t[i][c])
  {
    assert n != BlogPosts by {
      assert ActionOn(n, event.httpMethod) == Update(n);
    }
    KeyedIds(db[n]);
  }

  /** A DELETE removes the row named by the query's `id` and nothing else; with
      no `id` in the query it removes nothing. */
  lemma DeleteRemovesOnlyThatRow(db: Tables, event: Event, parse: string -> Option<Json.Value>, keySet: bool,
                                 ai: Option<string>, n: TableName)
    requires Complete(db) && Routed(event, Remove(n))
    ensures var (db', r) := Step(db, event, parse, true, keySet, ai);
      r == Message(200, "Deleted")
      && (forall m :: m != n ==> db'[m] == db[m])
      && (forall x :: x in db'[n] <==> x in db[n] && IdOf(x) != QueryId(event))
      && ("id" !in event.query ==> db' == db)
  {
    DeleteRowMembers(db[n], QueryId(event));
    if "id" !in event.query {
      KeyedIds(db[n]);
      assert !HasId(db[n], Json.Null);
      DeleteRowAbsent(db[n], Json.Null);
      assert db[n := db[n]] == db;
    }
  }
}
