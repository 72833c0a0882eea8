/**
 * The records the dashboard receives: touchpoints, grouped journeys and
 * the response envelope, and how one request for them can settle.
 */
module Journeys {

  /** One marketing touchpoint. `createdAt` is kept as the text the server sends. */
  datatype JourneyStep = JourneyStep(source: string, medium: string, campaign: string, createdAt: string)

  /**
   * A grouped journey: an ordered path of touchpoints, the number of sales
   * attributed to exactly that path, and the touchpoint count as sent by
   * the server (nothing ties it to the length of the path).
   */
  datatype GroupedJourney = GroupedJourney(id: string, path: seq<JourneyStep>, quantity: int, touchpoints: int)

  /** The envelope of the response: `data` is used only when `result` holds. */
  datatype ApiResponse = ApiResponse(message: string, result: bool, data: seq<GroupedJourney>)

  /**
   * How one request settles: a response body of the declared shape, or a
   * thrown error (the request failed, or the status was not a success).
   */
  datatype Outcome = Received(response: ApiResponse) | Failed(error: string)
}
