/**
 * Whole fetch-then-render runs on particular responses: what the page
 * shows after one fetch settles.
 */
module Scenarios {
  import opened Journeys
  import opened Fetch
  import opened Render
  import Channel
  import ChannelExamples

  /** The page once the fetch has settled with `o`, from the list it showed before. */
  function AfterFetch(before: seq<GroupedJourney>, o: Outcome): Page {
    RenderPage(Settle(before, o), false)
  }

  /**
   * A response accepted with one journey whose path is Google then Direct,
   * 5 sales and 2 touchpoints: one row, two badges in their styles joined
   * by one arrow, and the two numbers as sent.
   */
  lemma OneJourney(before: seq<GroupedJourney>, google: JourneyStep, direct: JourneyStep)
    requires google.source == "Google" && direct.source == "Direct"
    ensures var o := Received(ApiResponse("ok", true, [GroupedJourney("1", [google, direct], 5, 2)]));
      AfterFetch(before, o) == Page(false, Table([Row("1", [
        StepView(Badge("Google", Channel.StyleOf(Channel.Search)), true),
        StepView(Badge("Direct", Channel.StyleOf(Channel.Direct)), false)], 5, 2)], false))
  {
    var journey := GroupedJourney("1", [google, direct], 5, 2);
    assert Settle(before, Received(ApiResponse("ok", true, [journey]))) == [journey];
    assert Rows([journey]) == [RowOf(journey)] by {
      assert Rows([journey])[0] == RowOf(journey);
    }
    GoogleThenDirect(google, direct);
  }

  /** The path Google then Direct: two badges in their styles, the arrow after the first only. */
  lemma GoogleThenDirect(google: JourneyStep, direct: JourneyStep)
    requires google.source == "Google" && direct.source == "Direct"
    ensures PathView([google, direct]) == [
      StepView(Badge("Google", Channel.StyleOf(Channel.Search)), true),
      StepView(Badge("Direct", Channel.StyleOf(Channel.Direct)), false)]
  {
    TwoSteps(google, direct);
    GoogleBadge(google);
    DirectBadge(direct);
  }

  /** A two-step path: the first badge carries the arrow, the second does not. */
  lemma TwoSteps(first: JourneyStep, second: JourneyStep)
    ensures PathView([first, second]) == [StepView(BadgeOf(first), true), StepView(BadgeOf(second), false)]
  {
    var path := [first, second];
    var v := PathView(path);
    assert |v| == 2;
    assert v[0] == StepView(BadgeOf(path[0]), true);
    assert v[1] == StepView(BadgeOf(path[1]), false);
  }

  lemma GoogleBadge(step: JourneyStep)
    requires step.source == "Google"
    ensures BadgeOf(step) == Badge("Google", Channel.StyleOf(Channel.Search))
  {
    ChannelExamples.GoogleLabel(step.source);
  }

  lemma DirectBadge(step: JourneyStep)
    requires step.source == "Direct"
    ensures BadgeOf(step) == Badge("Direct", Channel.StyleOf(Channel.Direct))
  {
    ChannelExamples.DirectLabel(step.source);
  }

  /** An accepted response with no journeys: the empty-state notice under an empty table, no loading view. */
  lemma NoJourneys(before: seq<GroupedJourney>, message: string)
    ensures AfterFetch(before, Received(ApiResponse(message, true, []))) == Page(false, Table([], true))
  {
    assert Settle(before, Received(ApiResponse(message, true, []))) == [];
    assert Rows([]) == [];
  }

  /** A refused response leaves the list the page showed before. */
  lemma Refused(before: seq<GroupedJourney>, response: ApiResponse)
    requires !response.result
    ensures AfterFetch(before, Received(response)) == RenderPage(before, false)
  {
  }

  /**
   * The dashboard driven through a sequence of refreshes: the first
   * accepted response fills the table, a refused response and a failed
   * request keep it, and the loading flag is down after each.
   */
  method RefreshSequence(journey: GroupedJourney)
  {
    var page := new Dashboard();
    assert ShowsLoading(RenderPage(page.journeys, page.loading));
    page.FetchData(Received(ApiResponse("ok", true, [journey])));
    assert page.journeys == [journey] && !page.loading;
    page.FetchData(Received(ApiResponse("no data", false, [])));
    assert page.journeys == [journey] && !page.loading;
    page.FetchData(Failed("network error"));
    assert page.journeys == [journey] && !page.loading;
    assert ShowsRows(RenderPage(page.journeys, page.loading));
  }
}
