// The AI-analysis state of one prediction card (components/PredictionCard.tsx):
// the analysis text shown under the card and the loading flag that keeps a
// second request from starting while one is in flight.

module Card {
  import opened Wrappers

  /** The text shown when the analysis call itself throws. */
  const CouldNotLoad: string := "Could not load analysis."

  class AnalysisState {
    /** `analysis`: the text shown, or nothing yet. */
    var analysis: Option<string>
    /** `loadingAnalysis`: a request is in flight. */
    var loading: bool
    /** How many times the card has asked its parent to open the subscribe flow. */
    var subscribePrompts: nat
    /** How many analysis requests the card has started. */
    var requests: nat

    /** A freshly mounted card: no analysis, not loading. */
    constructor ()
      ensures analysis == None && !loading
      ensures subscribePrompts == 0 && requests == 0
    {
      analysis := None;
      loading := false;
      subscribePrompts := 0;
      requests := 0;
    }

    /** The first half of `handleAIAnalysis`, up to the awaited call. Without a
        logged-in user it only prompts to subscribe; while a request is in flight
        it does nothing; otherwise it raises the loading flag and starts exactly
        one request. */
    method BeginAnalysis(loggedIn: bool) returns (started: bool)
      modifies this
      ensures started <==> loggedIn && !old(loading)
      ensures subscribePrompts == old(subscribePrompts) + (if loggedIn then 0 else 1)
      ensures requests == old(requests) + (if started then 1 else 0)
      ensures loading == (old(loading) || started)
      ensures analysis == old(analysis)
    {
      started := false;
      if !loggedIn {
        subscribePrompts := subscribePrompts + 1;
        return;
      }
      if loading {
        return;
      }
      loading := true;
      requests := requests + 1;
      started := true;
    }

    /** The second half: the awaited result (`None` when the call threw) becomes
        the analysis text, and the `finally` clause lowers the loading flag. */
    method FinishAnalysis(outcome: Option<string>)
      requires loading
      modifies this
      ensures analysis == Some(if outcome.Some? then outcome.value else CouldNotLoad)
      ensures !loading
      ensures subscribePrompts == old(subscribePrompts) && requests == old(requests)
    {
      match outcome {
        case Some(text) => analysis := Some(text);
        case None => analysis := Some(CouldNotLoad);
      }
      loading := false;
    }
  }

  /** Two clicks with no answer in between start only one request, and an
      anonymous click never starts one. */
  method DoubleClick(card: AnalysisState, loggedIn: bool) returns (first: bool, second: bool)
    modifies card
    ensures !second
    ensures first <==> loggedIn && !old(card.loading)
    ensures card.requests <= old(card.requests) + 1
    ensures !loggedIn ==> card.requests == old(card.requests) && card.subscribePrompts == old(card.subscribePrompts) + 2
  {
    first := card.BeginAnalysis(loggedIn);
    second := card.BeginAnalysis(loggedIn);
  }
}
