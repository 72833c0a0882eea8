/**
 * `fetchData`: the dashboard's two pieces of state, the journey list and
 * the loading flag, and how one fetch changes them.
 */
module Fetch {
  import opened Journeys

  /** The outcome carries data the page takes: a response whose `result` is true. */
  predicate Accepted(o: Outcome) {
    o.Received? && o.response.result
  }

  /** The journey list after a fetch that settled with `o`, from the list before it. */
  function Settle(journeys: seq<GroupedJourney>, o: Outcome): seq<GroupedJourney> {
    if Accepted(o) then o.response.data else journeys
  }

  /** Settling twice with the same outcome is settling once. */
  lemma SettleIdempotent(journeys: seq<GroupedJourney>, o: Outcome)
    ensures Settle(Settle(journeys, o), o) == Settle(journeys, o)
  {
  }

  /** The list after fetches that settled one after the other, oldest first. */
  function SettleAll(journeys: seq<GroupedJourney>, outcomes: seq<Outcome>): seq<GroupedJourney> {
    if outcomes == [] then journeys
    else Settle(SettleAll(journeys, outcomes[..|outcomes| - 1]), outcomes[|outcomes| - 1])
  }

  /** `i` is the last position of an accepted outcome. */
  ghost predicate LastAccepted(outcomes: seq<Outcome>, i: int) {
    0 <= i < |outcomes| && Accepted(outcomes[i])
    && forall j :: i < j < |outcomes| ==> !Accepted(outcomes[j])
  }

  /** After fetches one after the other, the list is the data of the last accepted response. */
  lemma {:induction false} SettleAllLastWins(journeys: seq<GroupedJourney>, outcomes: seq<Outcome>, i: int)
    requires LastAccepted(outcomes, i)
    ensures SettleAll(journeys, outcomes) == outcomes[i].response.data
  {
    var n := |outcomes| - 1;
    if i < n {
      var init := outcomes[..n];
      assert LastAccepted(init, i) by {
        assert forall j :: 0 <= j < n ==> init[j] == outcomes[j];
      }
      SettleAllLastWins(journeys, init, i);
    }
  }

  /** When no response was accepted, the list is the one from before them all. */
  lemma {:induction false} SettleAllNoneAccepted(journeys: seq<GroupedJourney>, outcomes: seq<Outcome>)
    requires forall j :: 0 <= j < |outcomes| ==> !Accepted(outcomes[j])
    ensures SettleAll(journeys, outcomes) == journeys
  {
    if outcomes != [] {
      var n := |outcomes| - 1;
      var init := outcomes[..n];
      assert forall j :: 0 <= j < n ==> init[j] == outcomes[j];
      SettleAllNoneAccepted(journeys, init);
    }
  }

  /** The page state that `fetchData` reads and writes. */
  class Dashboard {
    var journeys: seq<GroupedJourney>
    var loading: bool

    /** The page starts with no journeys and the loading flag up. */
    constructor ()
      ensures journeys == [] && loading
    {
      journeys := [];
      loading := true;
    }

    /** The start of `fetchData`: the loading flag goes up before the request is made. */
    method Start()
      modifies this
      ensures loading && journeys == old(journeys)
    {
      loading := true;
    }

    /**
     * The rest of `fetchData` once the request settles: an accepted
     * response replaces the list, a refused one or an error leaves it, and
     * on every path the loading flag comes down.
     */
    method Finish(o: Outcome)
      modifies this
      ensures !loading
      ensures journeys == Settle(old(journeys), o)
      ensures Accepted(o) ==> journeys == o.response.data
      ensures !Accepted(o) ==> journeys == old(journeys)
    {
      if Accepted(o) {
        journeys := o.response.data;
      }
      // A failure is only logged.
      loading := false;
    }

    /** One whole `fetchData`, from a state at rest, whose request settled with `o`. */
    method FetchData(o: Outcome)
      modifies this
      ensures !loading
      ensures journeys == Settle(old(journeys), o)
    {
      Start();
      assert loading;
      Finish(o);
    }
  }
}
