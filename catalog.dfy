/** The two static lookup tables of the scheduler: product rates and raw-board widths. */
module Catalog {
  /** Rolls per hour for every product that can be ordered. */
  const ProductRates: map<string, real> := map[
    "DUT10-40360R6W" := 4.76,
    "DUT9-40330R6W" := 4.76,
    "DUT9-40360R6W" := 4.76,
    "U10-30331RCA6W" := 5.41,
    "U10-30333RCA5W" := 5.95,
    "U10-30333RCA6W" := 5.95,
    "U10-40386R5WTG" := 5.95,
    "U9-20346R6W" := 5.71,
    "S12-30331RCA6W" := 4.33,
    "SX12-20346R6W" := 4.33,
    "SX12-30444D6W" := 5.49,
    "SX12-40360R6W" := 4.37,
    "SX20-20346R5W" := 5.22,
    "SX20-30331R5W" := 5.22,
    "SX20-30331RCA5W" := 5.22,
    "SX20-30444D5W" := 5.27,
    "U9-30331R5W" := 5.19,
    "U9-30331RCA5W" := 5.50
  ]

  /** Physical width of each known raw board. */
  const BoardWidths: map<string, real> := map[
    "B163600316C" := 60.3125,
    "B163510332C" := 51.5,
    "B206600316C" := 60.3125,
    "B206500708C" := 50.875,
    "B196510332C" := 51.5,
    "B166420332C" := 42.5,
    "B206420332C" := 42.5,
    "B206420508C" := 50.875,
    "B196420508C" := 50.875
  ]

  /** Width assumed for a raw board that is not in the table. */
  const DefaultBoardWidth: real := 50.0

  /** Boards strictly wider than this go to the wide press. */
  const WidePressThreshold: real := 50.0

  /** Every catalogued rate is positive, so a duration `rolls / rate` is always defined. */
  lemma RatesPositive()
    ensures forall p :: p in ProductRates ==> ProductRates[p] > 0.0
  {
  }
}
