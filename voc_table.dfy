/** The gas-resistance lookup table: six air-quality categories, the resistance
    (in ohms) that marks each one, and the printable name of each category. */
module VocTable {

  /** The categories, in the order of the enumeration (`MAX` is their count). */
  datatype Category = Good | Average | Subpar | Bad | Awful | Severe

  const MAX: nat := 6

  /** The enumerator's integer value. */
  function Ordinal(c: Category): (k: nat)
    ensures k < MAX
  {
    match c
    case Good => 0
    case Average => 1
    case Subpar => 2
    case Bad => 3
    case Awful => 4
    case Severe => 5
  }

  /** The category whose enumerator has value `k`. */
  function FromOrdinal(k: nat): (c: Category)
    requires k < MAX
    ensures Ordinal(c) == k
  {
    if k == 0 then Good
    else if k == 1 then Average
    else if k == 2 then Subpar
    else if k == 3 then Bad
    else if k == 4 then Awful
    else Severe
  }

  /** The `_table` array: the gas resistance, in ohms, of each category, indexed by ordinal. */
  const Table: seq<nat> := [431331, 213212, 108042, 54586, 27080, 13591]

  /** The `_asString` array: each entry is the stringised enumerator name. */
  const AsString: seq<string> := ["Good", "Average", "Subpar", "Bad", "Awful", "Severe"]

  /** The resistance of category `c`. */
  function Threshold(c: Category): (ohms: nat)
    ensures ohms == match c
      case Good => 431331
      case Average => 213212
      case Subpar => 108042
      case Bad => 54586
      case Awful => 27080
      case Severe => 13591
    ensures 13591 <= ohms <= 431331
    ensures c == Good <==> ohms == 431331
  {
    Table[Ordinal(c)]
  }

  /** The name of category `c`. */
  function Name(c: Category): (s: string)
    ensures s == match c
      case Good => "Good"
      case Average => "Average"
      case Subpar => "Subpar"
      case Bad => "Bad"
      case Awful => "Awful"
      case Severe => "Severe"
  {
    AsString[Ordinal(c)]
  }

  /** Ordinal and FromOrdinal are inverse: each category has exactly one slot in both tables. */
  lemma OrdinalRoundTrip(c: Category, k: nat)
    requires k < MAX
    ensures FromOrdinal(Ordinal(c)) == c
    ensures Ordinal(FromOrdinal(k)) == k
  {
  }

  /** Worse air means lower resistance: the thresholds fall strictly with the ordinal. */
  lemma ThresholdsDecrease(c: Category, d: Category)
    requires Ordinal(c) < Ordinal(d)
    ensures Threshold(d) < Threshold(c)
  {
  }

  /** Distinct categories have distinct names, so a name identifies its category. */
  lemma NamesDistinct(c: Category, d: Category)
    requires c != d
    ensures Name(c) != Name(d)
  {
  }
}
