/**
 * The table record the table components pass around (the shape of
 * `mockTables`), with JavaScript's view of a verification counter that
 * may be missing from the object.
 */
module TableRecord {
  import opened JsText

  /** A `verificationCount` property: a number, absent (`undefined`), or `NaN`. */
  datatype Counter = Count(n: int) | Undefined | NotANumber

  /** `count + 1`: `undefined + 1` and `NaN + 1` are both `NaN`. */
  function Increment(c: Counter): (r: Counter)
    ensures r.Count? <==> c.Count?
    ensures c.Count? ==> r.n == c.n + 1
    ensures !c.Count? ==> r == NotANumber
  {
    if c.Count? then Count(c.n + 1) else NotANumber
  }

  /** `count >= k`: false for `undefined` and for `NaN`. */
  predicate AtLeast(c: Counter, k: int) {
    c.Count? && c.n >= k
  }

  /** `{count}` rendered by React: the number, nothing for `undefined`, "NaN" for `NaN`. */
  function CounterText(c: Counter): (r: string)
    ensures r == "" <==> c.Undefined?
  {
    match c
    case Count(n) => IntToString(n)
    case Undefined => ""
    case NotANumber => "NaN"
  }

  /** The number of verifications that makes a table verified. */
  const Threshold := 5

  datatype Table = Table(
    id: int, name: string, address: string, lat: real, lng: real,
    isPaid: bool, fee: Option<string>, hasBalls: bool, condition: string,
    notes: Option<string>, rating: real, reviews: int,
    verificationCount: Counter, isVerified: Option<bool>)

  /** `table.isVerified` taken as a condition: only `true` counts. */
  predicate Verified(t: Table) {
    t.isVerified == Some(true)
  }

  /** A table whose badge agrees with its counter. */
  predicate Consistent(t: Table) {
    t.verificationCount.Count? && t.verificationCount.n >= 0
    && t.isVerified == Some(t.verificationCount.n >= Threshold)
  }

  predicate AllConsistent(tables: seq<Table>) {
    forall i | 0 <= i < |tables| :: Consistent(tables[i])
  }

  predicate DistinctIds(tables: seq<Table>) {
    forall i, j | 0 <= i < j < |tables| :: tables[i].id != tables[j].id
  }

  function MockTables(): seq<Table> {
    [ Table(1, "Spielbar", "Sonnenstraße 12, 80331 München", 48.1371, 11.5754,
            true, Some("€1 per game"), true, "Excellent", None, 4.8, 24, Count(8), Some(true)),
      Table(2, "TU München Student Union", "Arcisstraße 21, 80333 München", 48.1512, 11.5693,
            false, None, true, "Good", None, 4.2, 18, Count(6), Some(true)),
      Table(3, "Gans Woanders", "Siegesstraße 6, 80331 München", 48.1492, 11.5819,
            true, Some("€2 per game"), true, "Very Good", None, 4.5, 32, Count(12), Some(true)),
      Table(4, "Die Kicker Fabrik", "Landsberger Str. 185, 80687 München", 48.1384, 11.5076,
            false, None, false, "Average", None, 3.7, 12, Count(3), Some(false)),
      Table(5, "Zephyr Lounge", "Leopoldstraße 56, 80802 München", 48.1631, 11.5859,
            true, Some("€1.5 per game"), true, "Excellent", None, 4.9, 41, Count(7), Some(true)) ]
  }

  /** Every mock table's badge agrees with its counter, and the ids are distinct. */
  lemma MockTablesConsistent()
    ensures AllConsistent(MockTables())
    ensures DistinctIds(MockTables())
  {
  }
}
