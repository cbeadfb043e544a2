/** Job records and the builder that resolves a job's rate, board width and press. */
module Jobs {
  import opened Wrappers
  import opened Clock
  import opened Catalog

  /** The two presses: the wide Heidelberg and the narrow Kidder. */
  datatype Press = Heidelberg | Kidder

  /** One job as it is stored in the session's job list. */
  datatype Job = Job(
    product: string,
    rawBoard: string,
    rolls: int,
    rate: real,
    boardWidth: real,
    runBy: Date,
    preferredStart: Option<TimeOfDay>,
    press: Press)

  /** Looking up a product that is not in the rate table fails. */
  datatype BuildError = UnknownProduct(product: string)

  /** The width of a raw board: its table entry, or the default for an unknown board. */
  function BoardWidthOf(rawBoard: string): (w: real)
    ensures rawBoard in BoardWidths ==> w == BoardWidths[rawBoard]
    ensures rawBoard !in BoardWidths ==> w == 50.0
    ensures w > 0.0
  {
    if rawBoard in BoardWidths then BoardWidths[rawBoard] else DefaultBoardWidth
  }

  /** The press a board of width `w` is routed to. */
  function PressFor(w: real): (p: Press)
    ensures p == Heidelberg <==> w > 50.0
    ensures p == Kidder <==> w <= 50.0
  {
    if w > WidePressThreshold then Heidelberg else Kidder
  }

  /**
   * Builds the job record for the "Add Job" button: the rate comes from the product
   * table, the width from the board table (default 50.0), the press from the width,
   * and every other field is the caller's input.
   */
  function BuildJob(product: string, rawBoard: string, rolls: int, runBy: Date,
                    preferredStart: Option<TimeOfDay>): (r: Result<Job, BuildError>)
    ensures r.Err? <==> product !in ProductRates
    ensures r.Err? ==> r.error == UnknownProduct(product)
    ensures r.Ok? ==> r.value.rate == ProductRates[product] && r.value.rate > 0.0
    ensures r.Ok? && rawBoard in BoardWidths ==> r.value.boardWidth == BoardWidths[rawBoard]
    ensures r.Ok? && rawBoard !in BoardWidths ==> r.value.boardWidth == 50.0
    ensures r.Ok? ==> (r.value.press == Heidelberg <==> r.value.boardWidth > 50.0)
    ensures r.Ok? ==> r.value.product == product && r.value.rawBoard == rawBoard
                      && r.value.rolls == rolls && r.value.runBy == runBy
                      && r.value.preferredStart == preferredStart
  {
    if product !in ProductRates then
      Err(UnknownProduct(product))
    else
      RatesPositive();
      var width := BoardWidthOf(rawBoard);
      Ok(Job(product, rawBoard, rolls, ProductRates[product], width, runBy, preferredStart, PressFor(width)))
  }

  /** An unknown raw board, and any board exactly 50 wide, goes to the Kidder. */
  lemma NarrowBoardsGoToKidder(product: string, rawBoard: string, rolls: int, runBy: Date,
                               preferredStart: Option<TimeOfDay>)
    requires product in ProductRates
    requires rawBoard !in BoardWidths || BoardWidths[rawBoard] <= 50.0
    ensures BuildJob(product, rawBoard, rolls, runBy, preferredStart).Ok?
    ensures BuildJob(product, rawBoard, rolls, runBy, preferredStart).value.press == Kidder
  {
  }

  /** Examples of routing and rate resolution for concrete boards and products. */
  lemma RoutingExamples(runBy: Date)
    ensures BuildJob("DUT10-40360R6W", "B163600316C", 1, runBy, None).value.press == Heidelberg
    ensures BuildJob("DUT10-40360R6W", "B163510332C", 1, runBy, None).value.press == Heidelberg
    ensures BuildJob("DUT10-40360R6W", "B166420332C", 1, runBy, None).value.press == Kidder
    ensures BuildJob("DUT10-40360R6W", "no such board", 1, runBy, None).value.boardWidth == 50.0
    ensures BuildJob("DUT10-40360R6W", "no such board", 1, runBy, None).value.press == Kidder
    ensures BuildJob("DUT10-40360R6W", "B163600316C", 100, runBy, None).value.rate == 4.76
    ensures BuildJob("no such product", "B163600316C", 1, runBy, None) == Err(UnknownProduct("no such product"))
  {
  }
}
