// Derived listings of src/App.tsx: the predictions page (date filter and the
// in-place sort by kick-off time), the accuracy and win-rate counters of the
// home and expert pages, the dashboard's accessible list, chart and own
// transactions, the OTP input sanitiser and the password-match guards.

module Listing {
  import opened Wrappers
  import opened Types
  import Access

  // ---------------------------------------------------------------- filters

  /** `Array.prototype.filter`: the elements satisfying `keep`, in order. */
  function Filter<T(!new)>(s: seq<T>, keep: T -> bool): (r: seq<T>)
    ensures |r| <= |s|
    ensures forall x :: x in r <==> x in s && keep(x)
    ensures forall x :: multiset(r)[x] == if keep(x) then multiset(s)[x] else 0
  {
    if s == [] then []
    else
      assert s == [s[0]] + s[1..];
      if keep(s[0]) then [s[0]] + Filter(s[1..], keep) else Filter(s[1..], keep)
  }

  /** Filtering with a stronger condition keeps no more elements. */
  lemma {:induction false} FilterNarrower<T(!new)>(s: seq<T>, strong: T -> bool, weak: T -> bool)
    requires forall x :: strong(x) ==> weak(x)
    ensures |Filter(s, strong)| <= |Filter(s, weak)|
  {
    if s != [] {
      FilterNarrower(s[1..], strong, weak);
    }
  }

  /** Filtering by a disjunction of exclusive conditions adds the counts. */
  lemma {:induction false} FilterSplit<T(!new)>(s: seq<T>, a: T -> bool, b: T -> bool, both: T -> bool)
    requires forall x :: both(x) == (a(x) || b(x))
    requires forall x :: !(a(x) && b(x))
    ensures |Filter(s, both)| == |Filter(s, a)| + |Filter(s, b)|
  {
    if s != [] {
      FilterSplit(s[1..], a, b, both);
    }
  }

  /** Filtering twice is filtering by the conjunction. */
  lemma {:induction false} FilterFilter<T(!new)>(s: seq<T>, a: T -> bool, b: T -> bool, ab: T -> bool)
    requires forall x :: ab(x) == (a(x) && b(x))
    ensures Filter(Filter(s, a), b) == Filter(s, ab)
  {
    if s != [] {
      FilterFilter(s[1..], a, b, ab);
    }
  }

  // ------------------------------------------------------ time-ordered table

  /** Character-code lexicographic order on time strings; `localeCompare` agrees
      with it on the uniform "HH:MM" strings the predictions carry. */
  predicate TimeLe(a: string, b: string)
    decreases |a|
  {
    |a| == 0 || (|b| > 0 && (a[0] < b[0] || (a[0] == b[0] && TimeLe(a[1..], b[1..]))))
  }

  lemma {:induction false} TimeLeTotal(a: string, b: string)
    ensures TimeLe(a, b) || TimeLe(b, a)
    decreases |a|
  {
    if |a| > 0 && |b| > 0 && a[0] == b[0] {
      TimeLeTotal(a[1..], b[1..]);
    }
  }

  lemma {:induction false} TimeLeTrans(a: string, b: string, c: string)
    requires TimeLe(a, b) && TimeLe(b, c)
    ensures TimeLe(a, c)
    decreases |a|
  {
    if |a| > 0 && a[0] == b[0] && b[0] == c[0] {
      TimeLeTrans(a[1..], b[1..], c[1..]);
    }
  }

  lemma {:induction false} TimeLeAntisym(a: string, b: string)
    requires TimeLe(a, b) && TimeLe(b, a)
    ensures a == b
    decreases |a|
  {
    if |a| > 0 {
      TimeLeAntisym(a[1..], b[1..]);
      assert a == [a[0]] + a[1..] && b == [b[0]] + b[1..];
    }
  }

  predicate SortedByTime(s: seq<Prediction>) {
    forall i, j :: 0 <= i < j < |s| ==> TimeLe(s[i].time, s[j].time)
  }

  /** `p => p.date === selectedDate`. */
  function DateIs(selectedDate: string): Prediction -> bool {
    (p: Prediction) => p.date == selectedDate
  }

  /** The predictions of the selected day, in the order the list holds them. */
  function OnDate(predictions: seq<Prediction>, selectedDate: string): seq<Prediction> {
    Filter(predictions, DateIs(selectedDate))
  }

  /** Exchanges two cells of the array. */
  method Swap(a: array<Prediction>, i: int, j: int)
    requires 0 <= i < j < a.Length
    modifies a
    ensures a[..] == old(a[..])[i := old(a[j])][j := old(a[i])]
    ensures multiset(a[..]) == multiset(old(a[..]))
  {
    a[i], a[j] := a[j], a[i];
  }

  /** One pass of insertion: moves `a[i]` left past every later-starting entry of
      the sorted prefix `a[..i]`, so that `a[..i+1]` is sorted. */
  method InsertIntoPrefix(a: array<Prediction>, i: int)
    requires 0 <= i < a.Length
    requires forall k, l :: 0 <= k < l < i ==> TimeLe(a[k].time, a[l].time)
    modifies a
    ensures forall k, l :: 0 <= k < l <= i ==> TimeLe(a[k].time, a[l].time)
    ensures multiset(a[..]) == multiset(old(a[..]))
  {
    var j := i;
    while j > 0 && !TimeLe(a[j - 1].time, a[j].time)
      invariant 0 <= j <= i
      invariant multiset(a[..]) == multiset(old(a[..]))
      invariant forall k, l :: 0 <= k < l <= i && k != j && l != j ==> TimeLe(a[k].time, a[l].time)
      invariant forall l :: j < l <= i ==> TimeLe(a[j].time, a[l].time)
    {
      TimeLeTotal(a[j - 1].time, a[j].time);
      Swap(a, j - 1, j);
      j := j - 1;
    }
    forall k, l | 0 <= k < l <= i
      ensures TimeLe(a[k].time, a[l].time)
    {
      if l == j && k < j - 1 {
        TimeLeTrans(a[k].time, a[j - 1].time, a[j].time);
      }
    }
  }

  /** `filteredPredictions.sort((a, b) => a.time.localeCompare(b.time))`: sorts the
      array in place by kick-off time, rearranging but never adding or dropping rows. */
  method SortByTime(a: array<Prediction>)
    modifies a
    ensures SortedByTime(a[..])
    ensures multiset(a[..]) == multiset(old(a[..]))
  {
    var i := 0;
    while i < a.Length
      invariant 0 <= i <= a.Length
      invariant forall k, l :: 0 <= k < l < i ==> TimeLe(a[k].time, a[l].time)
      invariant multiset(a[..]) == multiset(old(a[..]))
    {
      InsertIntoPrefix(a, i);
      i := i + 1;
    }
  }

  /** The predictions page table: the predictions of the selected date, sorted by
      time. Exactly the selected date's rows, each as often as in the input. */
  method DailyTable(predictions: seq<Prediction>, selectedDate: string) returns (table: seq<Prediction>)
    ensures SortedByTime(table)
    ensures multiset(table) == multiset(OnDate(predictions, selectedDate))
    ensures forall p :: p in table <==> p in predictions && p.date == selectedDate
  {
    var filtered := OnDate(predictions, selectedDate);
    var rows := new Prediction[|filtered|](k requires 0 <= k < |filtered| => filtered[k]);
    assert rows[..] == filtered;
    SortByTime(rows);
    table := rows[..];
    forall p
      ensures p in table <==> p in filtered
    {
      assert p in table <==> multiset(table)[p] > 0;
      assert p in filtered <==> multiset(filtered)[p] > 0;
    }
  }

  // ---------------------------------------------------- counters and rates

  predicate IsWon(p: Prediction) { p.result == Won }
  predicate IsLost(p: Prediction) { p.result == Lost }
  predicate IsVoid(p: Prediction) { p.result == Void }
  predicate IsWonOrLost(p: Prediction) { p.result == Won || p.result == Lost }
  predicate IsNotPending(p: Prediction) { p.result != Pending }

  function Wins(predictions: seq<Prediction>): nat { |Filter(predictions, IsWon)| }
  function Losses(predictions: seq<Prediction>): nat { |Filter(predictions, IsLost)| }
  function Voids(predictions: seq<Prediction>): nat { |Filter(predictions, IsVoid)| }

  /** `Math.round(100 * wins / total)` for non-negative operands: half rounds up. */
  function RoundedPercent(wins: nat, total: nat): (r: nat)
    requires 0 < total && wins <= total
    ensures r <= 100
    ensures wins == 0 ==> r == 0
    ensures wins == total ==> r == 100
  {
    RoundingFacts(wins, total);
    (200 * wins + total) / (2 * total)
  }

  /** The rounded percentage is the nearest integer to `100 * wins / total`,
      ties going up: `r - 1/2 <= 100 * wins / total < r + 1/2`. */
  lemma RoundedPercentIsNearest(wins: nat, total: nat)
    requires 0 < total && wins <= total
    ensures 2 * total * RoundedPercent(wins, total) <= 200 * wins + total < 2 * total * (RoundedPercent(wins, total) + 1)
  {
    RoundingFacts(wins, total);
  }

  lemma RoundingFacts(wins: nat, total: nat)
    requires 0 < total && wins <= total
    ensures var q := (200 * wins + total) / (2 * total);
      q <= 100 && (wins == 0 ==> q == 0) && (wins == total ==> q == 100)
      && 2 * total * q <= 200 * wins + total < 2 * total * (q + 1)
  {
    var x := 200 * wins + total;
    var d := 2 * total;
    DivBounds(x, d);
    var q := x / d;
    if q > 100 {
      MulMono(d, 101, q);
    }
    if wins == 0 && q > 0 {
      MulMono(d, 1, q);
    }
    if wins == total && q < 100 {
      MulMono(d, q + 1, 100);
    }
  }

  lemma DivBounds(x: nat, d: nat)
    requires d > 0
    ensures d * (x / d) <= x < d * (x / d + 1)
  {
  }

  lemma MulMono(d: nat, a: nat, b: nat)
    requires a <= b
    ensures d * a <= d * b
  {
  }

  /** HomePage `accuracyRate`: only Won and Lost count as settled; with none the
      page shows 85. */
  function AccuracyRate(predictions: seq<Prediction>): (rate: nat)
    ensures rate <= 100
  {
    var settled := Filter(predictions, IsWonOrLost);
    var won := Filter(settled, IsWon);
    if |settled| > 0 then RoundedPercent(|won|, |settled|) else 85
  }

  /** ExpertPage `winRate`: every non-Pending result, Void included, is in the
      denominator; with none the page shows 82. */
  function WinRate(predictions: seq<Prediction>): (rate: nat)
    ensures rate <= 100
  {
    var wins := |Filter(predictions, IsWon)|;
    var total := |Filter(predictions, IsNotPending)|;
    if total > 0 then
      FilterNarrower(predictions, IsWon, IsNotPending);
      RoundedPercent(wins, total)
    else 82
  }

  /** The accuracy counts: settled is Won plus Lost, so the rate is determined
      by the two counts, and it falls back to 85 exactly when neither occurs. */
  lemma AccuracyRateSpec(predictions: seq<Prediction>)
    ensures Wins(predictions) + Losses(predictions) == 0 ==> AccuracyRate(predictions) == 85
    ensures Wins(predictions) + Losses(predictions) > 0 ==>
      AccuracyRate(predictions) == RoundedPercent(Wins(predictions), Wins(predictions) + Losses(predictions))
  {
    SettledCounts(predictions);
  }

  /** Counting the Won or Lost predictions, and the Won ones among those. */
  lemma SettledCounts(predictions: seq<Prediction>)
    ensures |Filter(predictions, IsWonOrLost)| == Wins(predictions) + Losses(predictions)
    ensures |Filter(Filter(predictions, IsWonOrLost), IsWon)| == Wins(predictions)
  {
    FilterSplit(predictions, IsWon, IsLost, IsWonOrLost);
    FilterFilter(predictions, IsWonOrLost, IsWon, IsWon);
  }

  /** The win rate's denominator also holds the Void results, so it can never be
      smaller than the accuracy's; without Void results the two counters agree,
      except for their different fallbacks when nothing is settled. */
  lemma WinRateVersusAccuracy(predictions: seq<Prediction>)
    ensures Wins(predictions) + Losses(predictions) + Voids(predictions) == 0 ==> WinRate(predictions) == 82
    ensures Wins(predictions) + Losses(predictions) + Voids(predictions) > 0 ==>
      WinRate(predictions) == RoundedPercent(Wins(predictions), Wins(predictions) + Losses(predictions) + Voids(predictions))
    ensures Voids(predictions) == 0 && Wins(predictions) + Losses(predictions) > 0 ==>
      WinRate(predictions) == AccuracyRate(predictions)
  {
    NotPendingCount(predictions);
    AccuracyRateSpec(predictions);
  }

  /** The non-Pending predictions are the Won, Lost and Void ones. */
  lemma NotPendingCount(predictions: seq<Prediction>)
    ensures |Filter(predictions, IsNotPending)| == Wins(predictions) + Losses(predictions) + Voids(predictions)
  {
    FilterSplit(predictions, IsWonOrLost, IsVoid, IsNotPending);
    FilterSplit(predictions, IsWon, IsLost, IsWonOrLost);
  }

  // ------------------------------------------------------------- dashboard

  /** The dashboard filter for a user of the given tier. */
  function KeptFor(userTier: Tier): Prediction -> bool {
    (p: Prediction) => Access.DashboardKeeps(userTier, p)
  }

  /** The dashboard's `accessiblePredictions`. */
  function AccessiblePredictions(userTier: Tier, predictions: seq<Prediction>): seq<Prediction> {
    Filter(predictions, KeptFor(userTier))
  }

  /** The dashboard list keeps a prediction exactly when the blog-style rule
      admits it, settled or not: it has no settled bypass. */
  lemma AccessiblePredictionsSpec(userTier: Tier, predictions: seq<Prediction>, p: Prediction)
    ensures p in AccessiblePredictions(userTier, predictions) <==>
      p in predictions && (p.minTier == Free || Access.Weight(userTier) >= Access.Weight(p.minTier))
    ensures p in AccessiblePredictions(userTier, predictions) ==> Access.CanViewPrediction(Some(userTier), p.minTier, p.result)
    ensures userTier == Premium ==> AccessiblePredictions(userTier, predictions) == predictions
  {
    if userTier == Premium {
      FilterAllKept(predictions, KeptFor(userTier));
    }
  }

  lemma {:induction false} FilterAllKept<T(!new)>(s: seq<T>, keep: T -> bool)
    requires forall x :: x in s ==> keep(x)
    ensures Filter(s, keep) == s
  {
    if s != [] {
      assert keep(s[0]);
      assert forall x :: x in s[1..] ==> x in s;
      FilterAllKept(s[1..], keep);
      assert Filter(s, keep) == [s[0]] + Filter(s[1..], keep);
      assert s == [s[0]] + s[1..];
    }
  }

  datatype ChartPoint = ChartPoint(date: string, won: nat, lost: nat)

  /** One bar of `chartData`: wins and losses among the accessible predictions of
      that date. The weekday label is derived from the date and is not modelled. */
  function ChartPointFor(accessible: seq<Prediction>, date: string): ChartPoint {
    var day := OnDate(accessible, date);
    ChartPoint(date, |Filter(day, IsWon)|, |Filter(day, IsLost)|)
  }

  /** `chartData`: one point per day given, in the given order. */
  function ChartData(accessible: seq<Prediction>, days: seq<string>): (points: seq<ChartPoint>)
    ensures |points| == |days|
    ensures forall i :: 0 <= i < |days| ==> points[i] == ChartPointFor(accessible, days[i])
  {
    if days == [] then [] else [ChartPointFor(accessible, days[0])] + ChartData(accessible, days[1..])
  }

  /** A bar never counts more results than there are accessible predictions of
      that day. */
  lemma ChartPointBounded(accessible: seq<Prediction>, date: string)
    ensures var pt := ChartPointFor(accessible, date);
      pt.won + pt.lost <= |OnDate(accessible, date)| <= |accessible|
  {
    var day := OnDate(accessible, date);
    FilterSplit(day, IsWon, IsLost, IsWonOrLost);
  }

  /** `myTransactions`: exactly the transactions of the logged-in user. */
  function MyTransactions(userId: string, transactions: seq<PaymentTransaction>): (mine: seq<PaymentTransaction>)
    ensures forall t :: t in mine <==> t in transactions && t.userId == userId
  {
    Filter(transactions, (t: PaymentTransaction) => t.userId == userId)
  }

  // --------------------------------------------------------- form helpers

  predicate IsDigit(c: char) {
    '0' <= c <= '9'
  }

  /** `value.replace(/\D/g, '')`: every non-digit removed. */
  function DigitsOnly(s: string): (r: string)
    ensures |r| <= |s|
    ensures forall i :: 0 <= i < |r| ==> IsDigit(r[i])
  {
    if s == [] then []
    else if IsDigit(s[0]) then [s[0]] + DigitsOnly(s[1..])
    else DigitsOnly(s[1..])
  }

  /** The OTP input handler: digits only, then `.slice(0, 6)`. */
  function SanitizeOtp(s: string): (r: string)
    ensures |r| <= 6
    ensures forall i :: 0 <= i < |r| ==> IsDigit(r[i])
  {
    var d := DigitsOnly(s);
    if |d| <= 6 then d else d[..6]
  }

  lemma {:induction false} DigitsOnlyKeepsDigits(s: string)
    requires forall i :: 0 <= i < |s| ==> IsDigit(s[i])
    ensures DigitsOnly(s) == s
  {
    if s != [] {
      DigitsOnlyKeepsDigits(s[1..]);
      assert s == [s[0]] + s[1..];
    }
  }

  lemma {:induction false} DigitsOnlyAppend(s: string, t: string)
    ensures DigitsOnly(s + t) == DigitsOnly(s) + DigitsOnly(t)
  {
    if s == [] {
      assert s + t == t;
    } else {
      assert (s + t)[1..] == s[1..] + t;
      DigitsOnlyAppend(s[1..], t);
    }
  }

  /** An independent reading of the regular expression: the digits of the input,
      in order. */
  lemma {:induction false} DigitsOnlyIsFilter(s: string)
    ensures DigitsOnly(s) == Filter(s, IsDigit)
  {
    if s != [] {
      DigitsOnlyIsFilter(s[1..]);
    }
  }

  /** Sanitising is idempotent, keeps a string of at most six digits unchanged, and
      yields the first six digits of the input in their order. */
  lemma SanitizeOtpSpec(s: string)
    ensures SanitizeOtp(SanitizeOtp(s)) == SanitizeOtp(s)
    ensures |s| <= 6 && (forall i :: 0 <= i < |s| ==> IsDigit(s[i])) ==> SanitizeOtp(s) == s
    ensures SanitizeOtp(s) <= DigitsOnly(s)
    ensures |SanitizeOtp(s)| == if |DigitsOnly(s)| < 6 then |DigitsOnly(s)| else 6
  {
    var r := SanitizeOtp(s);
    DigitsOnlyKeepsDigits(r);
    if |s| <= 6 && (forall i :: 0 <= i < |s| ==> IsDigit(s[i])) {
      DigitsOnlyKeepsDigits(s);
    }
  }

  datatype FormCheck = Proceed | Refused(message: string)

  /** The register and reset-password handlers refuse to send anything when the
      two password fields differ. */
  function PasswordsMatch(password: string, confirmation: string): (r: FormCheck)
    ensures r == Proceed <==> password == confirmation
    ensures r.Refused? ==> r.message == "Passwords do not match"
  {
    if password != confirmation then Refused("Passwords do not match") else Proceed
  }
}
