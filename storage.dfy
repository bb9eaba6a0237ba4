// The browser-side seed-once store (services/storage.ts): four lists kept
// under fixed keys of `localStorage`, written from the seed data the first
// time the store is initialised, and read back with a default. The store is a
// map from key to item; an item is either the string `JSON.stringify` made of
// a value, whose parse gives that value back (serialisation is an abstract
// round trip), or text written as it is. The calendar the relative seed
// dates are computed from is an input.

module LocalStore {
  import opened Wrappers
  import opened Types

  const UsersKey: string := "heptabet_users_v1"
  const PredictionsKey: string := "heptabet_predictions_v1"
  const TransactionsKey: string := "heptabet_transactions_v1"
  const PostsKey: string := "heptabet_blog_posts_v1"
  const InitializedKey: string := "heptabet_initialized_v1"

  /** A value `setData` serialises: one of the four lists. */
  datatype Data =
    | UserList(users: seq<User>)
    | PredictionList(predictions: seq<Prediction>)
    | TransactionList(transactions: seq<PaymentTransaction>)
    | PostList(posts: seq<BlogPost>)

  /** What `localStorage` holds under a key: the string `JSON.stringify` made
      of a value, which is never empty, or text written as it is (the
      initialised flag is the text 'true'). */
  datatype Item = Serialised(data: Data) | Raw(text: string)

  /** `localStorage.getItem(key)` used as a condition: a missing key and an
      empty string are both falsy. */
  predicate Present(items: map<string, Item>, key: string) {
    key in items && items[key] != Raw("")
  }

  // ------------------------------------------------------------ the seeds

  /** `day(n)` is the date `n` days after the moment the seeds are built, as
      `toISOString().split('T')[0]` writes it. */
  type Calendar = int -> string

  function InitialUsers(day: Calendar): seq<User> {
    [ User("admin1", "Admin User", "admin@heptabet.com", Some("08012345678"), Premium, AdminRole, None,
           "2023-01-15", ExpiresOn("2025-12-31")),
      User("u2", "Basic User", "basic@heptabet.com", Some("08087654321"), Basic, UserRole, None,
           day(-45), ExpiresOn(day(2))),
      User("u3", "Standard User", "standard@heptabet.com", Some("08011122233"), Standard, UserRole, None,
           day(-10), ExpiresOn(day(20))),
      User("u4", "Premium User", "premium@heptabet.com", Some("08099988877"), Premium, UserRole, None,
           day(-100), ExpiresOn(day(5))) ]
  }

  function Seeded(id: string, league: string, home: string, away: string, date: string, time: string,
                  tip: string, odds: real, confidence: int, tier: Tier, status: MatchStatus,
                  result: PredictionResult): Prediction {
    Prediction(id, league, home, away, date, time, tip, odds, confidence, tier, status, result, "t1", None, None)
  }

  const InitialPredictions: seq<Prediction> := [
    Seeded("p1", "Premier League", "Arsenal", "Chelsea", "2023-11-25", "18:30", "Arsenal Win", 1.85, 9,
           Free, Scheduled, Pending),
    Seeded("p2", "La Liga", "Real Madrid", "Valencia", "2023-11-25", "21:00", "Over 2.5 Goals", 1.65, 8,
           Basic, Scheduled, Pending),
    Seeded("p3", "NPFL", "Enyimba", "Kano Pillars", "2023-11-26", "16:00", "Enyimba Win & Under 3.5", 2.10, 7,
           Standard, Scheduled, Pending),
    Seeded("p4", "Serie A", "Juventus", "Inter Milan", "2023-11-26", "20:45", "Both Teams to Score", 1.90, 8,
           Free, Scheduled, Pending),
    Seeded("p5", "Champions League", "Man City", "Leipzig", "2023-11-28", "21:00", "Man City -1.5 Handicap", 1.95, 9,
           Premium, Scheduled, Pending),
    Seeded("h1", "Premier League", "Liverpool", "Brentford", "2023-11-12", "15:00", "Liverpool Win & Over 2.5", 1.80, 8,
           Standard, Finished, Won),
    Seeded("h2", "Premier League", "Chelsea", "Man City", "2023-11-12", "17:30", "Man City Win", 1.75, 7,
           Free, Finished, Lost),
    Seeded("h3", "La Liga", "Atletico Madrid", "Villarreal", "2023-11-12", "21:00", "Atletico Win", 1.50, 9,
           Basic, Finished, Won),
    Seeded("h4", "Serie A", "Lazio", "Roma", "2023-11-12", "18:00", "Draw", 3.20, 5,
           Free, Finished, Won)
  ]

  const InitialTransactions: seq<PaymentTransaction> := [
    PaymentTransaction("tx_123456", "u3", "Standard User", "Standard", "₦5,000", BankTransfer, Approved,
                       "2023-11-20", "https://placehold.co/400x600?text=Receipt+Image"),
    PaymentTransaction("tx_789012", "u2", "Basic User", "Premium", "₦10,000", Usdt, PaymentPending,
                       "2023-11-24", "https://placehold.co/400x600?text=USDT+Hash+Screenshot")
  ]

  /** The three seed posts; their excerpts, contents and image addresses are
      not part of this model and are left empty. */
  const InitialPosts: seq<BlogPost> := [
    BlogPost("1", "How to Analyze Football Matches Like a Pro", "", "", "Ola The Oracle", "2023-11-20", "", Free),
    BlogPost("2", "The Psychology of Discipline in Betting", "", "", "Admin User", "2023-11-18", "", Standard),
    BlogPost("3", "Premium Insight: Weekend Value Picks", "", "", "Ola The Oracle", "2023-11-24", "", Premium)
  ]

  // ---------------------------------------------------- the store, as values

  /** What `init` leaves behind: untouched without a window or once the flag
      is set, otherwise the four seed lists and the flag written over the
      previous contents. */
  function Initialised(items: map<string, Item>, hasWindow: bool, day: Calendar): (r: map<string, Item>)
    ensures !hasWindow || Present(items, InitializedKey) ==> r == items
    ensures hasWindow && !Present(items, InitializedKey) ==>
      r.Keys == items.Keys + {UsersKey, PredictionsKey, TransactionsKey, PostsKey, InitializedKey}
      && r[UsersKey] == Serialised(UserList(InitialUsers(day)))
      && r[PredictionsKey] == Serialised(PredictionList(InitialPredictions))
      && r[TransactionsKey] == Serialised(TransactionList(InitialTransactions))
      && r[PostsKey] == Serialised(PostList(InitialPosts))
      && r[InitializedKey] == Raw("true")
      && (forall k :: k in items && k !in {UsersKey, PredictionsKey, TransactionsKey, PostsKey, InitializedKey} ==>
            r[k] == items[k])
  {
    if !hasWindow || Present(items, InitializedKey) then items
    else items[UsersKey := Serialised(UserList(InitialUsers(day)))]
              [PredictionsKey := Serialised(PredictionList(InitialPredictions))]
              [TransactionsKey := Serialised(TransactionList(InitialTransactions))]
              [PostsKey := Serialised(PostList(InitialPosts))]
              [InitializedKey := Raw("true")]
  }

  /** `getData`: the item stored under the key, or the default when there is
      no window or nothing truthy is stored. */
  function Lookup(items: map<string, Item>, hasWindow: bool, key: string, default: Data): (r: Item)
    ensures !hasWindow || !Present(items, key) ==> r == Serialised(default)
    ensures hasWindow && Present(items, key) ==> r == items[key]
  {
    if hasWindow && Present(items, key) then items[key] else Serialised(default)
  }

  /** `setData`: the key overwritten with the serialised value, or nothing
      without a window. */
  function Written(items: map<string, Item>, hasWindow: bool, key: string, data: Data): (r: map<string, Item>)
    ensures !hasWindow ==> r == items
    ensures hasWindow ==> r.Keys == items.Keys + {key} && r[key] == Serialised(data)
    ensures forall k :: k in items && k != key ==> k in r && r[k] == items[k]
  {
    if hasWindow then items[key := Serialised(data)] else items
  }

  // --------------------------------------------------------- the store

  class Store {
    /** Whether `window` is defined. */
    const hasWindow: bool
    /** The calendar the seed dates were computed with. */
    const day: Calendar
    /** The contents of `localStorage`. */
    var items: map<string, Item>

    constructor (hasWindow: bool, day: Calendar, items: map<string, Item>)
      ensures this.hasWindow == hasWindow && this.day == day && this.items == items
    {
      this.hasWindow := hasWindow;
      this.day := day;
      this.items := items;
    }

    /** `init`: seeds the store unless it was seeded already. */
    method Init()
      modifies this
      ensures items == Initialised(old(items), hasWindow, day)
    {
      if !hasWindow {
        return;
      }
      if !Present(items, InitializedKey) {
        items := items[UsersKey := Serialised(UserList(InitialUsers(day)))];
        items := items[PredictionsKey := Serialised(PredictionList(InitialPredictions))];
        items := items[TransactionsKey := Serialised(TransactionList(InitialTransactions))];
        items := items[PostsKey := Serialised(PostList(InitialPosts))];
        items := items[InitializedKey := Raw("true")];
      }
    }

    /** `setData`. */
    method SetData(key: string, data: Data)
      modifies this
      ensures items == Written(old(items), hasWindow, key, data)
    {
      if !hasWindow {
        return;
      }
      items := items[key := Serialised(data)];
    }

    /** `getData`. */
    function GetData(key: string, default: Data): (r: Item)
      reads this
      ensures r == Lookup(items, hasWindow, key, default)
    {
      if !hasWindow then Serialised(default)
      else if Present(items, key) then items[key]
      else Serialised(default)
    }

    /** The typed getters: each reads its key with its seed list as default. */
    function GetUsers(): (r: Item)
      reads this
      ensures !Present(items, UsersKey) ==> r == Serialised(UserList(InitialUsers(day)))
      ensures hasWindow && Present(items, UsersKey) ==> r == items[UsersKey]
    {
      GetData(UsersKey, UserList(InitialUsers(day)))
    }

    function GetPredictions(): (r: Item)
      reads this
      ensures !Present(items, PredictionsKey) ==> r == Serialised(PredictionList(InitialPredictions))
      ensures hasWindow && Present(items, PredictionsKey) ==> r == items[PredictionsKey]
    {
      GetData(PredictionsKey, PredictionList(InitialPredictions))
    }

    function GetTransactions(): (r: Item)
      reads this
      ensures !Present(items, TransactionsKey) ==> r == Serialised(TransactionList(InitialTransactions))
      ensures hasWindow && Present(items, TransactionsKey) ==> r == items[TransactionsKey]
    {
      GetData(TransactionsKey, TransactionList(InitialTransactions))
    }

    function GetBlogPosts(): (r: Item)
      reads this
      ensures !Present(items, PostsKey) ==> r == Serialised(PostList(InitialPosts))
      ensures hasWindow && Present(items, PostsKey) ==> r == items[PostsKey]
    {
      GetData(PostsKey, PostList(InitialPosts))
    }

    /** The typed savers write their list under their key. */
    method SaveUsers(users: seq<User>)
      modifies this
      ensures items == Written(old(items), hasWindow, UsersKey, UserList(users))
    {
      SetData(UsersKey, UserList(users));
    }

    method SavePredictions(predictions: seq<Prediction>)
      modifies this
      ensures items == Written(old(items), hasWindow, PredictionsKey, PredictionList(predictions))
    {
      SetData(PredictionsKey, PredictionList(predictions));
    }

    method SaveTransactions(transactions: seq<PaymentTransaction>)
      modifies this
      ensures items == Written(old(items), hasWindow, TransactionsKey, TransactionList(transactions))
    {
      SetData(TransactionsKey, TransactionList(transactions));
    }

    method SaveBlogPosts(posts: seq<BlogPost>)
      modifies this
      ensures items == Written(old(items), hasWindow, PostsKey, PostList(posts))
    {
      SetData(PostsKey, PostList(posts));
    }
  }

  // ----------------------------------------------------------- properties

  /** A second `init` changes nothing. */
  lemma InitIdempotent(items: map<string, Item>, hasWindow: bool, day: Calendar)
    ensures Initialised(Initialised(items, hasWindow, day), hasWindow, day) == Initialised(items, hasWindow, day)
  {
  }

  /** On a store never seeded, after `init` every key reads its seed list,
      whatever was stored under it before. */
  lemma GettersAfterInit(items: map<string, Item>, day: Calendar, d: Data)
    requires !Present(items, InitializedKey)
    ensures var r := Initialised(items, true, day);
      Lookup(r, true, UsersKey, d) == Serialised(UserList(InitialUsers(day)))
      && Lookup(r, true, PredictionsKey, d) == Serialised(PredictionList(InitialPredictions))
      && Lookup(r, true, TransactionsKey, d) == Serialised(TransactionList(InitialTransactions))
      && Lookup(r, true, PostsKey, d) == Serialised(PostList(InitialPosts))
  {
  }

  /** Reading a key back after writing it gives the value written, unless
      there is no window; other keys read as before. */
  lemma WriteThenRead(items: map<string, Item>, hasWindow: bool, key: string, other: string, data: Data, default: Data)
    requires other != key
    ensures Lookup(Written(items, hasWindow, key, data), hasWindow, key, default) ==
      Serialised(if hasWindow then data else default)
    ensures Lookup(Written(items, hasWindow, key, data), hasWindow, other, default) ==
      Lookup(items, hasWindow, other, default)
  {
  }

  /** Without a window nothing is ever stored and every read is its default. */
  lemma NoWindowNoStore(items: map<string, Item>, day: Calendar, key: string, data: Data, default: Data)
    ensures Initialised(items, false, day) == items && Written(items, false, key, data) == items
    ensures Lookup(items, false, key, default) == Serialised(default)
  {
  }

  /** The seed users have distinct ids, and admin1 is the one admin. */
  lemma SeedUsers(day: Calendar)
    ensures var us := InitialUsers(day);
      (forall i, j :: 0 <= i < j < |us| ==> us[i].id != us[j].id)
      && (forall i :: 0 <= i < |us| ==> (us[i].role == AdminRole <==> us[i].id == "admin1"))
  {
  }

  /** The seed predictions have distinct ids and a confidence from 1 to 10;
      the settled ones are finished and the pending ones are scheduled. */
  lemma SeedPredictions()
    ensures forall i, j :: 0 <= i < j < |InitialPredictions| ==> InitialPredictions[i].id != InitialPredictions[j].id
    ensures forall p :: p in InitialPredictions ==> ValidConfidence(p.confidence)
    ensures forall p :: p in InitialPredictions && p.result in {Won, Lost} ==> p.status == Finished
    ensures forall p :: p in InitialPredictions && p.result == Pending ==> p.status == Scheduled
  {
  }
}
