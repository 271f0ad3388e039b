/** The fixed floor list and how floor codes are displayed. */
module FloorSelection {

  /** Ground, first, second and third floor, in that order. */
  const Floors: seq<string> := ["GF", "FF", "SF", "TF"]

  /** The label a floor card shows: the long name of one of the four codes, or
      the code itself for anything else. */
  function FloorLabel(code: string): (shown: string)
    ensures code !in Floors ==> shown == code
    ensures code in Floors ==> shown !in Floors && |shown| > |code|
  {
    match code
    case "GF" => "Ground Floor"
    case "FF" => "First Floor"
    case "SF" => "Second Floor"
    case "TF" => "Third Floor"
    case _ => code
  }

  /** The floor screen lists ground, first, second and third floor, in that order. */
  lemma FloorLabelsInOrder()
    ensures seq(|Floors|, i requires 0 <= i < |Floors| => FloorLabel(Floors[i]))
         == ["Ground Floor", "First Floor", "Second Floor", "Third Floor"]
  {
  }

  /** The four floors have four different labels. */
  lemma FloorLabelsDistinct()
    ensures forall i, j | 0 <= i < j < |Floors| :: FloorLabel(Floors[i]) != FloorLabel(Floors[j])
  {
  }

  /** A floor card: what it shows and what choosing it passes on. */
  datatype FloorCard = FloorCard(caption: string, selects: string)

  /** The cards of the floor screen, one per floor in list order; each shows the
      label but passes on the code. */
  function FloorCards(): (cards: seq<FloorCard>)
    ensures |cards| == |Floors|
    ensures forall i | 0 <= i < |cards| ::
      cards[i].selects == Floors[i] && cards[i].caption == FloorLabel(Floors[i]) && cards[i].caption != cards[i].selects
  {
    seq(|Floors|, i requires 0 <= i < |Floors| => FloorCard(FloorLabel(Floors[i]), Floors[i]))
  }
}
