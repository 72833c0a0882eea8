/**
 * What the page shows, as a pure function of the journey list and the
 * loading flag: the spinning refresh icon, and either the loading view or
 * the table, whose rows show each path as badges joined by arrows.
 */
module Render {
  import opened Journeys
  import Channel

  /** A touchpoint badge: its text and its channel style. */
  datatype Badge = Badge(text: string, style: string)

  /** One step of a path on screen: its badge, and whether an arrow follows it. */
  datatype StepView = StepView(badge: Badge, arrow: bool)

  datatype Row = Row(key: string, steps: seq<StepView>, quantity: int, touchpoints: int)

  /** The card's content: the loading view, or the table with an empty-state notice under it when there are no rows. */
  datatype Body = LoadingView | Table(rows: seq<Row>, emptyNotice: bool)

  datatype Page = Page(refreshSpinning: bool, body: Body)

  function BadgeOf(step: JourneyStep): Badge {
    Badge(step.source, Channel.ChannelStyle(step.source))
  }

  /** The path of a row: one badge per step, an arrow after step `idx` while `idx < |path| - 1`. */
  function PathView(path: seq<JourneyStep>): (steps: seq<StepView>) {
    seq(|path|, idx requires 0 <= idx < |path| => StepView(BadgeOf(path[idx]), idx < |path| - 1))
  }

  function RowOf(journey: GroupedJourney): Row {
    Row(journey.id, PathView(journey.path), journey.quantity, journey.touchpoints)
  }

  /** The table body: one row per journey, in the list's order. */
  function Rows(journeys: seq<GroupedJourney>): seq<Row> {
    seq(|journeys|, i requires 0 <= i < |journeys| => RowOf(journeys[i]))
  }

  function RenderPage(journeys: seq<GroupedJourney>, loading: bool): Page {
    Page(loading, if loading then LoadingView else Table(Rows(journeys), |journeys| == 0))
  }

  // The three mutually exclusive things the card can show.

  predicate ShowsLoading(p: Page) {
    p.body.LoadingView?
  }

  predicate ShowsEmpty(p: Page) {
    p.body.Table? && p.body.emptyNotice
  }

  predicate ShowsRows(p: Page) {
    p.body.Table? && |p.body.rows| > 0
  }

  /**
   * Exactly one of the loading view, the empty-state notice and the rows
   * is shown: the loading view while loading, the notice when the list is
   * empty, the rows otherwise; the refresh icon spins exactly while loading.
   */
  lemma ExactlyOneView(journeys: seq<GroupedJourney>, loading: bool)
    ensures RenderPage(journeys, loading).refreshSpinning == loading
    ensures ShowsLoading(RenderPage(journeys, loading)) <==> loading
    ensures ShowsEmpty(RenderPage(journeys, loading)) <==> !loading && |journeys| == 0
    ensures ShowsRows(RenderPage(journeys, loading)) <==> !loading && |journeys| > 0
    ensures ShowsLoading(RenderPage(journeys, loading)) || ShowsEmpty(RenderPage(journeys, loading))
         || ShowsRows(RenderPage(journeys, loading))
    ensures !(ShowsLoading(RenderPage(journeys, loading)) && ShowsEmpty(RenderPage(journeys, loading)))
    ensures !(ShowsLoading(RenderPage(journeys, loading)) && ShowsRows(RenderPage(journeys, loading)))
    ensures !(ShowsEmpty(RenderPage(journeys, loading)) && ShowsRows(RenderPage(journeys, loading)))
  {
  }

  /**
   * The table lists every journey once, in the server's order, keyed by
   * its id, with its path's labels and styles and its two numbers as they
   * came.
   */
  lemma RowsFollowJourneys(journeys: seq<GroupedJourney>)
    ensures var body := RenderPage(journeys, false).body;
      body.Table? && |body.rows| == |journeys|
      && forall i :: 0 <= i < |journeys| ==>
        body.rows[i].key == journeys[i].id
        && body.rows[i].quantity == journeys[i].quantity
        && body.rows[i].touchpoints == journeys[i].touchpoints
        && |body.rows[i].steps| == |journeys[i].path|
        && forall j :: 0 <= j < |journeys[i].path| ==>
          body.rows[i].steps[j].badge.text == journeys[i].path[j].source
          && body.rows[i].steps[j].badge.style == Channel.StyleOf(Channel.Classify(journeys[i].path[j].source))
  {
  }

  // The path as it reads on screen: badges and arrows in one sequence.

  datatype Item = BadgeItem(badge: Badge) | Arrow

  function Items(steps: seq<StepView>): seq<Item> {
    if steps == [] then []
    else [BadgeItem(steps[0].badge)] + (if steps[0].arrow then [Arrow] else []) + Items(steps[1..])
  }

  function CountArrows(items: seq<Item>): nat {
    if items == [] then 0 else (if items[0].Arrow? then 1 else 0) + CountArrows(items[1..])
  }

  /** Steps joined the way the page joins them: an arrow after every step but the last. */
  predicate Joined(steps: seq<StepView>) {
    forall idx :: 0 <= idx < |steps| ==> steps[idx].arrow == (idx < |steps| - 1)
  }

  lemma {:induction false} JoinedAlternates(steps: seq<StepView>)
    requires steps != [] && Joined(steps)
    ensures |Items(steps)| == 2 * |steps| - 1
    ensures forall i :: 0 <= i < |steps| ==> Items(steps)[2 * i] == BadgeItem(steps[i].badge)
    ensures forall i :: 0 <= i < |steps| - 1 ==> Items(steps)[2 * i + 1] == Arrow
  {
    if |steps| == 1 {
      assert Items(steps) == [BadgeItem(steps[0].badge)] + Items(steps[1..]);
    } else {
      JoinedAlternates(steps[1..]);
      var rest := Items(steps[1..]);
      assert Items(steps) == [BadgeItem(steps[0].badge), Arrow] + rest;
      forall i | 1 <= i < |steps|
        ensures Items(steps)[2 * i] == BadgeItem(steps[i].badge)
      {
        assert Items(steps)[2 * i] == rest[2 * (i - 1)];
      }
      forall i | 1 <= i < |steps| - 1
        ensures Items(steps)[2 * i + 1] == Arrow
      {
        assert Items(steps)[2 * i + 1] == rest[2 * (i - 1) + 1];
      }
    }
  }

  lemma {:induction false} JoinedArrowCount(steps: seq<StepView>)
    requires Joined(steps)
    ensures CountArrows(Items(steps)) == if steps == [] then 0 else |steps| - 1
  {
    if steps != [] {
      var tail := steps[1..];
      assert forall idx :: 0 <= idx < |tail| ==> tail[idx] == steps[idx + 1];
      assert Joined(tail);
      JoinedArrowCount(tail);
      var rest := Items(tail);
      var badge := BadgeItem(steps[0].badge);
      if |steps| == 1 {
        assert Items(steps) == [badge] + rest && rest == [];
      } else {
        var items := [badge] + [Arrow] + rest;
        assert Items(steps) == items;
        assert items[1..] == [Arrow] + rest;
        assert ([Arrow] + rest)[1..] == rest;
        assert CountArrows(items) == CountArrows([Arrow] + rest) == 1 + CountArrows(rest);
      }
    }
  }

  /**
   * A path of n >= 1 steps reads badge, arrow, badge, ..., badge: the
   * badges of the steps in order at the even places, an arrow at every
   * odd place, so none after the last badge.
   */
  lemma PathAlternates(path: seq<JourneyStep>)
    requires path != []
    ensures |Items(PathView(path))| == 2 * |path| - 1
    ensures forall i :: 0 <= i < |path| ==> Items(PathView(path))[2 * i] == BadgeItem(BadgeOf(path[i]))
    ensures forall i :: 0 <= i < |path| - 1 ==> Items(PathView(path))[2 * i + 1] == Arrow
  {
    JoinedAlternates(PathView(path));
  }

  /** A path of n steps shows n - 1 arrows (none for an empty path). */
  lemma ArrowCount(path: seq<JourneyStep>)
    ensures CountArrows(Items(PathView(path))) == if path == [] then 0 else |path| - 1
  {
    JoinedArrowCount(PathView(path));
  }
}
