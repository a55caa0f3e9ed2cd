/**
 * The map of tables: pins and legend for the verified tables, placed by
 * their position in that list, shown once the simulated map has loaded.
 */
module TableMap {
  import opened TableRecord
  import opened Lists

  /** `mockTables.filter(table => table.isVerified)`. */
  function VerifiedTables(tables: seq<Table>): (r: seq<Table>)
    ensures |r| <= |tables|
    ensures forall i | 0 <= i < |r| :: r[i] in tables && Verified(r[i])
    ensures forall i | 0 <= i < |tables| :: Verified(tables[i]) ==> tables[i] in r
  {
    Filter(tables, (t: Table) => Verified(t))
  }

  /** The pins sit at `left: 20 + 15·i %` and `top: 30 + 8·i %`. */
  datatype Pin = Pin(table: Table, left: int, top: int)

  function PinAt(verified: seq<Table>, i: nat): Pin
    requires i < |verified|
  {
    Pin(verified[i], 20 + i * 15, 30 + i * 8)
  }

  function Pins(tables: seq<Table>): (r: seq<Pin>)
    ensures |r| == |VerifiedTables(tables)|
    ensures forall i | 0 <= i < |r| :: r[i] == PinAt(VerifiedTables(tables), i)
  {
    var verified := VerifiedTables(tables);
    seq(|verified|, i requires 0 <= i < |verified| => PinAt(verified, i))
  }

  /** The legend lists the names of the verified tables. */
  function Legend(tables: seq<Table>): (r: seq<string>)
    ensures |r| == |VerifiedTables(tables)|
    ensures forall i | 0 <= i < |r| :: r[i] == VerifiedTables(tables)[i].name
  {
    Map(VerifiedTables(tables), (t: Table) => t.name)
  }

  /** A table has a pin iff it is listed and verified; pins move strictly right and down. */
  lemma PinsFacts(tables: seq<Table>, t: Table)
    ensures (exists i | 0 <= i < |Pins(tables)| :: Pins(tables)[i].table == t) <==> t in tables && Verified(t)
    ensures forall i, j | 0 <= i < j < |Pins(tables)| ::
      Pins(tables)[i].left < Pins(tables)[j].left && Pins(tables)[i].top < Pins(tables)[j].top
  {
    var pins := Pins(tables);
    if t in tables && Verified(t) {
      var k :| 0 <= k < |VerifiedTables(tables)| && VerifiedTables(tables)[k] == t;
      assert pins[k].table == t;
    }
  }

  /** The legend names the pinned tables in the same order. */
  lemma LegendMatchesPins(tables: seq<Table>)
    ensures |Legend(tables)| == |Pins(tables)|
    ensures forall i | 0 <= i < |Pins(tables)| :: Legend(tables)[i] == Pins(tables)[i].table.name
  {
  }

  /** Filtering five tables of which only the fourth is unverified drops just that one. */
  lemma FourthDropped(a: Table, b: Table, c: Table, d: Table, e: Table)
    requires Verified(a) && Verified(b) && Verified(c) && !Verified(d) && Verified(e)
    ensures VerifiedTables([a, b, c, d, e]) == [a, b, c, e]
  {
    var p := (t: Table) => Verified(t);
    assert [e][1..] == [];
    assert Filter([e], p) == [e];
    assert [d, e][1..] == [e];
    assert Filter([d, e], p) == [e];
    assert [c, d, e][1..] == [d, e];
    assert Filter([c, d, e], p) == [c, e];
    assert [b, c, d, e][1..] == [c, d, e];
    assert Filter([b, c, d, e], p) == [b, c, e];
    assert [a, b, c, d, e][1..] == [b, c, d, e];
  }

  /** Four of the five listed tables are pinned; the unverified one is not. */
  lemma MockPins()
    ensures VerifiedTables(MockTables()) == [MockTables()[0], MockTables()[1], MockTables()[2], MockTables()[4]]
    ensures |Pins(MockTables())| == 4
  {
    var m := MockTables();
    assert m == [m[0], m[1], m[2], m[3], m[4]];
    FourthDropped(m[0], m[1], m[2], m[3], m[4]);
  }

  class MapView {
    var mapLoaded: bool

    constructor ()
      ensures !mapLoaded
    {
      mapLoaded := false;
    }

    /** The effect's timer body: the map is loaded and stays loaded. */
    method FinishLoading()
      modifies this
      ensures mapLoaded
    {
      mapLoaded := true;
    }

    /** The pins are drawn only once the map has loaded. */
    function VisiblePins(tables: seq<Table>): (r: seq<Pin>)
      reads this
      ensures !mapLoaded ==> r == []
      ensures mapLoaded ==> |r| == |VerifiedTables(tables)|
    {
      if mapLoaded then Pins(tables) else []
    }

    /** The legend is drawn with the pins: the name of each visible pin, in order. */
    function VisibleLegend(tables: seq<Table>): (r: seq<string>)
      reads this
      ensures !mapLoaded ==> r == []
      ensures |r| == |VisiblePins(tables)|
      ensures forall i | 0 <= i < |r| :: r[i] == VisiblePins(tables)[i].table.name
    {
      if mapLoaded then Legend(tables) else []
    }
  }
}
