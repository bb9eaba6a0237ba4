// Tier ranking and the visibility rules of the client: the weight table shared by
// components/PredictionCard.tsx, src/App.tsx and App.tsx, the three canView
// variants (prediction card and table, blog post, dashboard list), and the small
// display decisions of the prediction card.

module Access {
  import opened Wrappers
  import opened Types

  /** `getTierWeight` on a well-typed tier. */
  function Weight(t: Tier): (w: nat)
    ensures w <= 3
    ensures w == 0 <==> t == Free
    ensures w == 3 <==> t == Premium
  {
    match t
    case Free => 0
    case Basic => 1
    case Standard => 2
    case Premium => 3
  }

  /** `getTierWeight` on whatever string arrives at run time: the `switch` compares
      against the four enum strings and falls through to `default: return 0`. */
  function RawWeight(s: string): nat {
    if s == "Premium" then 3
    else if s == "Standard" then 2
    else if s == "Basic" then 1
    else if s == "Free" then 0
    else 0
  }

  /** The tiers in declaration order, an independent reference for the ranking. */
  const Ladder: seq<Tier> := [Free, Basic, Standard, Premium]

  /** Weight is the position in the ladder: strictly increasing along it, so the
      ranking is a strict total order with Premium on top. */
  lemma WeightIsLadderPosition(t: Tier, u: Tier)
    ensures Weight(t) < |Ladder| && Ladder[Weight(t)] == t
    ensures forall i, j :: 0 <= i < j < |Ladder| ==> Weight(Ladder[i]) < Weight(Ladder[j])
    ensures Weight(t) == Weight(u) <==> t == u
    ensures Weight(t) <= Weight(Premium)
  {
  }

  /** The raw-string weight agrees with the typed one on the four enum strings,
      and is 0 (the rank of Free) on every other string. */
  lemma RawWeightFailsClosed(s: string)
    ensures ParseTier(s).Some? ==> RawWeight(s) == Weight(ParseTier(s).value)
    ensures ParseTier(s).None? ==> RawWeight(s) == 0
    ensures forall t: Tier :: RawWeight(TierName(t)) == Weight(t)
  {
  }

  /** Weight of the viewer: `user ? getTierWeight(user.subscription) : 0`. */
  function ViewerWeight(viewer: Option<Tier>): (w: nat)
    ensures viewer.None? ==> w == 0
    ensures viewer.Some? ==> w == Weight(viewer.value)
  {
    match viewer
    case None => 0
    case Some(t) => Weight(t)
  }

  /** `canView` of the prediction card and the predictions table: free, or the
      viewer ranks at least the item, or the prediction is settled. */
  predicate CanViewPrediction(viewer: Option<Tier>, minTier: Tier, result: PredictionResult) {
    minTier == Free || ViewerWeight(viewer) >= Weight(minTier) || IsSettled(result)
  }

  /** `canView` of the blog post page: no settled bypass, and an anonymous
      reader only sees free posts. */
  predicate CanViewPost(viewer: Option<Tier>, tier: Tier) {
    tier == Free || (viewer.Some? && Weight(viewer.value) >= Weight(tier))
  }

  /** The dashboard's `accessiblePredictions` filter for a logged-in user. */
  predicate DashboardKeeps(userTier: Tier, p: Prediction) {
    p.minTier == Free || Weight(userTier) >= Weight(p.minTier)
  }

  /** The prediction rule on raw strings, exactly as the code compares them. */
  predicate RawCanViewPrediction(viewerSubscription: Option<string>, minTier: string, result: PredictionResult) {
    minTier == "Free"
    || (if viewerSubscription.Some? then RawWeight(viewerSubscription.value) else 0) >= RawWeight(minTier)
    || IsSettled(result)
  }

  /** Characterisation of the prediction rule: settled items are always shown; a
      pending item is shown exactly when the viewer's rank reaches the item's. */
  lemma CanViewPredictionSpec(viewer: Option<Tier>, minTier: Tier, result: PredictionResult)
    ensures IsSettled(result) ==> CanViewPrediction(viewer, minTier, result)
    ensures !IsSettled(result) ==>
      (CanViewPrediction(viewer, minTier, result) <==> ViewerWeight(viewer) >= Weight(minTier))
    ensures viewer.None? ==> (CanViewPrediction(viewer, minTier, result) <==> minTier == Free || result != Pending)
    ensures viewer == Some(Premium) ==> CanViewPrediction(viewer, minTier, result)
  {
  }

  /** Raising the viewer's tier (or logging in) never revokes visibility. */
  lemma CanViewPredictionMonotone(v1: Option<Tier>, v2: Option<Tier>, minTier: Tier, result: PredictionResult)
    requires ViewerWeight(v1) <= ViewerWeight(v2)
    ensures CanViewPrediction(v1, minTier, result) ==> CanViewPrediction(v2, minTier, result)
    ensures CanViewPost(v1, minTier) ==> CanViewPost(v2, minTier)
  {
  }

  /** A logged-in Free viewer sees exactly what an anonymous viewer sees. */
  lemma FreeViewerIsAnonymous(minTier: Tier, result: PredictionResult)
    ensures CanViewPrediction(Some(Free), minTier, result) == CanViewPrediction(None, minTier, result)
    ensures CanViewPost(Some(Free), minTier) == CanViewPost(None, minTier)
  {
  }

  /** The blog and dashboard rules are the prediction rule without its settled
      bypass; hence they never show more than the prediction rule does. */
  lemma PostRuleIsPredictionRuleWhilePending(viewer: Option<Tier>, t: Tier, u: Tier, p: Prediction)
    ensures CanViewPost(viewer, t) == CanViewPrediction(viewer, t, Pending)
    ensures CanViewPost(viewer, t) ==> forall r: PredictionResult :: CanViewPrediction(viewer, t, r)
    ensures DashboardKeeps(u, p) == CanViewPost(Some(u), p.minTier)
    ensures viewer.None? ==> (CanViewPost(viewer, t) <==> t == Free)
  {
  }

  /** A settled prediction the blog-style rule would hide is still shown by the
      card: the bypass really widens access. */
  lemma SettledBypassWidensAccess()
    ensures !CanViewPost(Some(Basic), Premium) && CanViewPrediction(Some(Basic), Premium, Void)
  {
  }

  /** The raw rule is the typed rule on well-formed strings. An unknown viewer
      subscription weighs as Free (fail-closed for the viewer), but an unknown item
      tier also weighs 0, so such an item is visible to everyone (fail-open for
      the item). */
  lemma RawRuleAsWritten(viewer: Option<Tier>, minTier: Tier, result: PredictionResult, junk: string)
    requires ParseTier(junk).None?
    ensures RawCanViewPrediction(if viewer.Some? then Some(TierName(viewer.value)) else None, TierName(minTier), result)
            == CanViewPrediction(viewer, minTier, result)
    ensures RawCanViewPrediction(Some(junk), TierName(minTier), result) == CanViewPrediction(Some(Free), minTier, result)
    ensures RawCanViewPrediction(None, junk, Pending)
  {
    RawWeightFailsClosed(junk);
  }

  /** The AI button: `canView && user?.subscription === PREMIUM`. */
  predicate AiButtonShown(viewer: Option<Tier>, p: Prediction) {
    CanViewPrediction(viewer, p.minTier, p.result) && viewer == Some(Premium)
  }

  /** The analysis panel: `analysis && canView`. */
  predicate AnalysisPanelShown(viewer: Option<Tier>, p: Prediction, analysis: Option<string>) {
    analysis.Some? && analysis.value != "" && CanViewPrediction(viewer, p.minTier, p.result)
  }

  /** The button's canView conjunct never matters: a Premium viewer can view
      every prediction, so the button shows exactly for Premium viewers. */
  lemma AiButtonIsPremiumOnly(viewer: Option<Tier>, p: Prediction, analysis: Option<string>)
    ensures AiButtonShown(viewer, p) <==> viewer == Some(Premium)
    ensures AnalysisPanelShown(viewer, p, analysis) ==> CanViewPrediction(viewer, p.minTier, p.result)
  {
  }

  datatype ConfidenceBand = GreenBand | YellowBand | GreyBand

  /** `getConfidenceColor`. */
  function ConfidenceColor(score: int): ConfidenceBand {
    if score >= 9 then GreenBand else if score >= 7 then YellowBand else GreyBand
  }

  function BandRank(b: ConfidenceBand): nat {
    match b
    case GreyBand => 0
    case YellowBand => 1
    case GreenBand => 2
  }

  /** Green for 9 and above, yellow for 7 and 8, grey below; a higher
      score never gets a lower band. */
  lemma ConfidenceColorBands(score: int, other: int)
    ensures ConfidenceColor(score) == GreenBand <==> score >= 9
    ensures ConfidenceColor(score) == YellowBand <==> 7 <= score <= 8
    ensures ConfidenceColor(score) == GreyBand <==> score <= 6
    ensures score <= other ==> BandRank(ConfidenceColor(score)) <= BandRank(ConfidenceColor(other))
  {
  }

  datatype Badge = WonBadge | LostBadge | VoidBadge | LiveBadge | FinishedBadge | TimeBadge(time: string)

  /** `renderStatusBadge` of the prediction card: an early-return chain. */
  function StatusBadge(p: Prediction): Badge {
    if p.result == Won then WonBadge
    else if p.result == Lost then LostBadge
    else if p.result == Void then VoidBadge
    else if p.status == Live then LiveBadge
    else if p.status == Finished then FinishedBadge
    else TimeBadge(p.time)
  }

  function BadgeForResult(r: PredictionResult): Badge
    requires r != Pending
  {
    match r
    case Won => WonBadge
    case Lost => LostBadge
    case Void => VoidBadge
  }

  /** Priority Won > Lost > Void > Live > Finished > time: a settled result decides
      the badge whatever the match status; the status only matters while pending,
      and the scheduled time shows only for a pending, scheduled match. */
  lemma StatusBadgePriority(p: Prediction, s: MatchStatus)
    ensures IsSettled(p.result) ==> StatusBadge(p) == BadgeForResult(p.result)
    ensures IsSettled(p.result) ==> StatusBadge(p.(status := s)) == StatusBadge(p)
    ensures p.result == Pending ==>
      StatusBadge(p) == (match p.status case Live => LiveBadge case Finished => FinishedBadge case Scheduled => TimeBadge(p.time))
    ensures StatusBadge(p).TimeBadge? <==> p.result == Pending && p.status == Scheduled
  {
  }

  datatype StatusCell = WonCell | LostCell | LiveCell | StatusText(status: MatchStatus)

  /** The status column of the predictions table (src/App.tsx): four independent
      conditional spans; for a Void result none of them renders. */
  function TableStatusCell(p: Prediction): Option<StatusCell> {
    if p.result == Won then Some(WonCell)
    else if p.result == Lost then Some(LostCell)
    else if p.result == Pending && p.status == Live then Some(LiveCell)
    else if p.result == Pending then Some(StatusText(p.status))
    else None
  }

  /** The table and the card agree on Won, Lost and live pending matches, but a
      Void prediction gets a VOID badge on the card and an empty cell in the table. */
  lemma TableCellVersusCardBadge(p: Prediction)
    ensures p.result == Won ==> TableStatusCell(p) == Some(WonCell) && StatusBadge(p) == WonBadge
    ensures p.result == Lost ==> TableStatusCell(p) == Some(LostCell) && StatusBadge(p) == LostBadge
    ensures p.result == Pending && p.status == Live ==> TableStatusCell(p) == Some(LiveCell) && StatusBadge(p) == LiveBadge
    ensures TableStatusCell(p).None? <==> p.result == Void
    ensures p.result == Void ==> StatusBadge(p) == VoidBadge
  {
  }

  datatype TipCell = ShownTip(tip: string) | LockedTip(required: Tier)

  /** The tip column of the predictions table: the real tip when `canView`,
      otherwise a lock carrying the required tier. */
  function TableTipCell(viewer: Option<Tier>, p: Prediction): TipCell {
    if CanViewPrediction(viewer, p.minTier, p.result) then ShownTip(p.tip) else LockedTip(p.minTier)
  }

  /** A pending tip above the viewer's rank is never revealed; a settled tip
      is always revealed. */
  lemma TableTipMasking(viewer: Option<Tier>, p: Prediction)
    ensures p.result == Pending && ViewerWeight(viewer) < Weight(p.minTier) ==> TableTipCell(viewer, p) == LockedTip(p.minTier)
    ensures IsSettled(p.result) ==> TableTipCell(viewer, p) == ShownTip(p.tip)
    ensures TableTipCell(viewer, p).LockedTip? ==> p.minTier != Free && p.result == Pending
  {
  }
}
