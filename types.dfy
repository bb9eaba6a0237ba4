// Shared value types: an Option wrapper, a model of parsed JSON values with
// JavaScript truthiness, and the records and enumerations of types.ts.

module Wrappers {
  datatype Option<+T> = None | Some(value: T)
}

/** A parsed JSON value, as the handlers and clients see the result of
    `JSON.parse`. Numbers are modelled as integers. */
module Json {
  import opened Wrappers

  datatype Value =
    | Null
    | Bool(b: bool)
    | Num(n: int)
    | Str(s: string)
    | Array(items: seq<Value>)
    | Object(fields: map<string, Value>)

  /** JavaScript truthiness of a value. */
  predicate Truthy(v: Value) {
    match v
    case Null => false
    case Bool(b) => b
    case Num(n) => n != 0
    case Str(s) => s != ""
    case Array(_) => true
    case Object(_) => true
  }

  /** Property access `v[key]` on a value that is not null: `None` is `undefined`. */
  function Get(v: Value, key: string): (r: Option<Value>)
    ensures r.Some? <==> v.Object? && key in v.fields
    ensures r.Some? ==> r.value == v.fields[key]
  {
    if v.Object? && key in v.fields then Some(v.fields[key]) else None
  }

  /** `!!v[key]`: the property exists and is truthy. */
  predicate HasTruthy(v: Value, key: string) {
    var f := Get(v, key);
    f.Some? && Truthy(f.value)
  }

  /** The value that pg sends for a parameter: `undefined` becomes SQL NULL. */
  function ParamOf(v: Value, key: string): (r: Value)
    ensures Get(v, key).None? ==> r == Null
    ensures Get(v, key).Some? ==> r == Get(v, key).value
  {
    match Get(v, key)
    case None => Null
    case Some(x) => x
  }
}

/** The enumerations and records of types.ts. */
module Types {
  import opened Wrappers

  datatype Tier = Free | Basic | Standard | Premium

  /** The string value of each `SubscriptionTier` member. */
  function TierName(t: Tier): string {
    match t
    case Free => "Free"
    case Basic => "Basic"
    case Standard => "Standard"
    case Premium => "Premium"
  }

  /** Reading a raw subscription string back into a tier; anything that is not
      one of the four enum strings is rejected. */
  function ParseTier(s: string): (r: Option<Tier>)
    ensures r.Some? ==> TierName(r.value) == s
    ensures r.None? ==> forall t: Tier :: TierName(t) != s
  {
    if s == "Free" then Some(Free)
    else if s == "Basic" then Some(Basic)
    else if s == "Standard" then Some(Standard)
    else if s == "Premium" then Some(Premium)
    else None
  }

  /** The four tier strings are pairwise distinct, and parsing inverts naming. */
  lemma TierNameRoundTrip(t: Tier, u: Tier)
    ensures ParseTier(TierName(t)) == Some(t)
    ensures TierName(t) == TierName(u) <==> t == u
  {
  }

  datatype Role = UserRole | AdminRole

  function RoleName(r: Role): string {
    match r
    case UserRole => "user"
    case AdminRole => "admin"
  }

  function ParseRole(s: string): (r: Option<Role>)
    ensures r.Some? <==> s == "user" || s == "admin"
    ensures r.Some? ==> RoleName(r.value) == s
  {
    if s == "user" then Some(UserRole) else if s == "admin" then Some(AdminRole) else None
  }

  datatype MatchStatus = Scheduled | Live | Finished

  function StatusName(s: MatchStatus): string {
    match s
    case Scheduled => "Scheduled"
    case Live => "Live"
    case Finished => "Finished"
  }

  datatype PredictionResult = Pending | Won | Lost | Void

  function ResultName(r: PredictionResult): string {
    match r
    case Pending => "Pending"
    case Won => "Won"
    case Lost => "Lost"
    case Void => "Void"
  }

  /** A prediction is settled once its result is anything but Pending. */
  predicate IsSettled(r: PredictionResult) {
    r != Pending
  }

  datatype PaymentStatus = PaymentPending | Approved | Rejected

  function PaymentStatusName(s: PaymentStatus): string {
    match s
    case PaymentPending => "Pending"
    case Approved => "Approved"
    case Rejected => "Rejected"
  }

  datatype PaymentMethod = BankTransfer | Usdt

  function PaymentMethodName(m: PaymentMethod): string {
    match m
    case BankTransfer => "Bank Transfer"
    case Usdt => "USDT"
  }

  /** `subscriptionExpiryDate?: string | null`: absent, null, or a date string. */
  datatype Expiry = NoExpiry | NullExpiry | ExpiresOn(date: string)

  datatype User = User(
    id: string,
    name: string,
    email: string,
    phoneNumber: Option<string>,
    subscription: Tier,
    role: Role,
    avatarUrl: Option<string>,
    joinDate: string,
    subscriptionExpiryDate: Expiry)

  datatype Prediction = Prediction(
    id: string,
    league: string,
    homeTeam: string,
    awayTeam: string,
    date: string,
    time: string,
    tip: string,
    odds: real,
    confidence: int,
    minTier: Tier,
    status: MatchStatus,
    result: PredictionResult,
    tipsterId: string,
    analysis: Option<string>,
    score: Option<string>)

  /** The documented (not enforced) range of a confidence score. */
  predicate ValidConfidence(c: int) {
    1 <= c <= 10
  }

  datatype PaymentTransaction = PaymentTransaction(
    id: string,
    userId: string,
    userName: string,
    planId: string,
    amount: string,
    payMethod: PaymentMethod,
    status: PaymentStatus,
    date: string,
    receiptUrl: string)

  datatype BlogPost = BlogPost(
    id: string,
    title: string,
    excerpt: string,
    content: string,
    author: string,
    date: string,
    imageUrl: string,
    tier: Tier)

  /** The enumerations have exactly the documented members, with distinct strings. */
  lemma EnumerationsAreExact(r: PredictionResult, s: MatchStatus, p: PaymentStatus, m: PaymentMethod)
    ensures IsSettled(r) <==> r in {Won, Lost, Void}
    ensures ResultName(r) in {"Pending", "Won", "Lost", "Void"}
    ensures StatusName(s) in {"Scheduled", "Live", "Finished"}
    ensures PaymentStatusName(p) in {"Pending", "Approved", "Rejected"}
    ensures PaymentMethodName(m) in {"Bank Transfer", "USDT"}
    ensures forall r': PredictionResult :: ResultName(r) == ResultName(r') ==> r == r'
    ensures forall s': MatchStatus :: StatusName(s) == StatusName(s') ==> s == s'
  {
  }
}
