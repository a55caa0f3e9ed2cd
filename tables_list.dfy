/**
 * The list of tables: community verification with its threshold of five,
 * and the replacement of a table after the edit dialog closes.
 */
module TablesList {
  import opened JsText
  import opened TableRecord
  import opened EditTableForm

  // ---------------------------------------------------------------------
  // Verification
  // ---------------------------------------------------------------------

  /** One table after a verification, counted against the threshold. */
  function Verify(t: Table): (r: Table)
    ensures r.verificationCount == Increment(t.verificationCount)
    ensures r.isVerified == Some(AtLeast(r.verificationCount, Threshold))
    ensures r.(verificationCount := t.verificationCount, isVerified := t.isVerified) == t
  {
    var count := Increment(t.verificationCount);
    t.(verificationCount := count, isVerified := Some(AtLeast(count, Threshold)))
  }

  /** `handleVerifyTable`: the table with that id is verified once more, every other one is kept. */
  function VerifyTables(tables: seq<Table>, id: int): (r: seq<Table>)
    ensures |r| == |tables|
    ensures forall i | 0 <= i < |r| :: r[i] == if tables[i].id == id then Verify(tables[i]) else tables[i]
  {
    seq(|tables|, i requires 0 <= i < |tables| => if tables[i].id == id then Verify(tables[i]) else tables[i])
  }

  /** A consistent table stays consistent, gains exactly one verification, and turns verified at five. */
  lemma VerifyStep(t: Table)
    requires Consistent(t)
    ensures Consistent(Verify(t))
    ensures Verify(t).verificationCount.n == t.verificationCount.n + 1
    ensures Verified(Verify(t)) <==> t.verificationCount.n + 1 >= Threshold
    ensures Verified(t) ==> Verified(Verify(t))
  {
  }

  /** Verifying keeps every badge in agreement with its counter. */
  lemma VerifyKeepsConsistent(tables: seq<Table>, id: int)
    requires AllConsistent(tables)
    ensures AllConsistent(VerifyTables(tables, id))
  {
    forall i | 0 <= i < |tables| && tables[i].id == id
      ensures Consistent(VerifyTables(tables, id)[i])
    {
      VerifyStep(tables[i]);
    }
  }

  /** Counters never decrease, so a verified table stays verified. */
  lemma VerifyMonotone(tables: seq<Table>, id: int, i: int)
    requires AllConsistent(tables) && 0 <= i < |tables|
    ensures VerifyTables(tables, id)[i].verificationCount.n >= tables[i].verificationCount.n
    ensures Verified(tables[i]) ==> Verified(VerifyTables(tables, id)[i])
  {
    if tables[i].id == id {
      VerifyStep(tables[i]);
    }
  }

  /** The Verify button is offered exactly for the tables that are not verified. */
  predicate VerifyButtonShown(t: Table) {
    !Verified(t)
  }

  lemma VerifyButtonBelowThreshold(t: Table)
    requires Consistent(t)
    ensures VerifyButtonShown(t) <==> t.verificationCount.n < Threshold
  {
  }

  /** Of the listed tables only "Die Kicker Fabrik" offers Verify, and two more verifications make it verified. */
  lemma MockVerifyButtons()
    ensures forall i | 0 <= i < |MockTables()| :: VerifyButtonShown(MockTables()[i]) <==> i == 3
    ensures !Verified(VerifyTables(MockTables(), 4)[3])
    ensures Verified(VerifyTables(VerifyTables(MockTables(), 4), 4)[3])
  {
  }

  // ---------------------------------------------------------------------
  // Replacing an edited table
  // ---------------------------------------------------------------------

  /** `tables.map(t => t.id === updated.id ? updated : t)`. */
  function ReplaceById(tables: seq<Table>, updated: Table): (r: seq<Table>)
    ensures |r| == |tables|
    ensures forall i | 0 <= i < |r| :: r[i] == if tables[i].id == updated.id then updated else tables[i]
  {
    seq(|tables|, i requires 0 <= i < |tables| => if tables[i].id == updated.id then updated else tables[i])
  }

  /**
   * The object the list stores on save as written: the values the schema
   * returned, which carry neither `verificationCount` nor `isVerified`.
   */
  function SavedObject(v: FormValues): (r: Table)
    ensures r.verificationCount == Undefined && r.isVerified == None
  {
    Table(v.id, v.name, v.address, v.lat, v.lng, v.isPaid, v.fee, v.hasBalls, v.condition,
          v.notes, v.rating, v.reviews, Undefined, None)
  }

  /** The object `onComplete` hands to the list: the saved values, or the unchanged table on cancel. */
  function Received(o: Outcome): (r: Table)
    ensures o.Cancelled? ==> r == o.table
    ensures o.Saved? ==> r.id == o.values.id && r.verificationCount == Undefined
  {
    match o
    case Saved(v) => SavedObject(v)
    case Cancelled(t) => t
  }

  /**
   * `handleEditComplete` as written: the received object replaces every
   * table with its id; each entry keeps its id and every other entry is kept.
   */
  function EditCompleteAsWritten(tables: seq<Table>, o: Outcome): (r: seq<Table>)
    ensures |r| == |tables|
    ensures forall i | 0 <= i < |r| :: r[i].id == tables[i].id
    ensures forall i | 0 <= i < |r| :: tables[i].id != Received(o).id ==> r[i] == tables[i]
    ensures forall i | 0 <= i < |r| :: tables[i].id == Received(o).id ==> r[i] == Received(o)
  {
    ReplaceById(tables, Received(o))
  }

  /** Closing the dialog keeps the ids of the list distinct. */
  lemma EditCompleteKeepsDistinctIds(tables: seq<Table>, o: Outcome)
    requires DistinctIds(tables)
    ensures DistinctIds(EditCompleteAsWritten(tables, o))
  {
  }

  /** Cancelling the edit of a listed table gives the list back unchanged. */
  lemma CancelKeepsList(tables: seq<Table>, k: int)
    requires DistinctIds(tables) && 0 <= k < |tables|
    ensures EditCompleteAsWritten(tables, Cancelled(tables[k])) == tables
  {
    var r := EditCompleteAsWritten(tables, Cancelled(tables[k]));
    forall i | 0 <= i < |tables| ensures r[i] == tables[i] {
      if i != k {
        assert tables[i].id != tables[k].id;
      }
    }
  }

  /** Verifying the same table n times in a row. */
  function VerifyRepeatedly(tables: seq<Table>, id: int, n: nat): (r: seq<Table>)
    ensures |r| == |tables|
    ensures forall i | 0 <= i < |r| :: r[i].id == tables[i].id
  {
    if n == 0 then tables else VerifyTables(VerifyRepeatedly(tables, id, n - 1), id)
  }

  /** After a verification a missing counter is `NaN`, and stays so. */
  lemma {:induction false} CounterStaysBroken(tables: seq<Table>, id: int, i: int, n: nat)
    requires 0 <= i < |tables| && tables[i].id == id && !tables[i].verificationCount.Count?
    requires !Verified(tables[i])
    ensures !VerifyRepeatedly(tables, id, n)[i].verificationCount.Count?
    ensures !Verified(VerifyRepeatedly(tables, id, n)[i])
    ensures n > 0 ==> VerifyRepeatedly(tables, id, n)[i].verificationCount == NotANumber
  {
    if n > 0 {
      CounterStaysBroken(tables, id, i, n - 1);
    }
  }

  /**
   * Saving an edit of a verified table leaves it unverified for good:
   * its badge reads "Unverified" and no number of verifications restores it.
   */
  lemma SavedEditLosesVerification(tables: seq<Table>, i: int, v: FormValues, n: nat)
    requires 0 <= i < |tables| && tables[i].id == v.id && Verified(tables[i])
    ensures !Verified(EditCompleteAsWritten(tables, Saved(v))[i])
    ensures !Verified(VerifyRepeatedly(EditCompleteAsWritten(tables, Saved(v)), v.id, n)[i])
  {
    var edited := EditCompleteAsWritten(tables, Saved(v));
    assert edited[i] == SavedObject(v);
    CounterStaysBroken(edited, v.id, i, n);
  }

  /** Concretely: saving "Spielbar" unchanged turns its eight verifications into an unverified, uncounted table. */
  lemma SpielbarEditExample()
    ensures Verified(MockTables()[0])
    ensures !Verified(EditCompleteAsWritten(MockTables(), Saved(DefaultValues(MockTables()[0])))[0])
  {
  }

  /** The intended merge: the saved values are written over the table they edit, which keeps its counter. */
  function EditApplied(tables: seq<Table>, o: Outcome): (r: seq<Table>)
    ensures |r| == |tables|
  {
    match o
    case Saved(v) =>
      seq(|tables|, i requires 0 <= i < |tables| => if tables[i].id == v.id then Overwrite(tables[i], v) else tables[i])
    case Cancelled(t) => ReplaceById(tables, t)
  }

  /** The intended merge keeps every badge consistent and never drops a verification. */
  lemma EditAppliedKeepsVerification(tables: seq<Table>, o: Outcome)
    requires AllConsistent(tables)
    requires o.Cancelled? ==> Consistent(o.table)
    ensures AllConsistent(EditApplied(tables, o))
    ensures o.Saved? ==> forall i | 0 <= i < |tables| ::
      EditApplied(tables, o)[i].verificationCount == tables[i].verificationCount
      && (Verified(tables[i]) <==> Verified(EditApplied(tables, o)[i]))
  {
  }

  /** With the intended merge, saving the defaults of a table changes nothing but blank optional fields. */
  lemma SavingDefaultsApplied(tables: seq<Table>, i: int)
    requires 0 <= i < |tables| && DistinctIds(tables)
    ensures EditApplied(tables, Saved(DefaultValues(tables[i])))[i]
      == tables[i].(fee := Some(OrEmpty(tables[i].fee)), notes := Some(OrEmpty(tables[i].notes)))
  {
    SavingDefaultsKeepsTable(tables[i]);
  }

  // ---------------------------------------------------------------------
  // The list's state
  // ---------------------------------------------------------------------

  class TablesView {
    var tables: seq<Table>
    var selectedTable: Option<int>

    /** No two listed tables share an id. */
    predicate Valid()
      reads this
    {
      DistinctIds(tables)
    }

    constructor ()
      ensures tables == MockTables() && selectedTable == None
      ensures Valid() && AllConsistent(tables)
    {
      tables := MockTables();
      selectedTable := None;
      MockTablesConsistent();
    }

    /** The Edit button opens the dialog on a table. */
    method SelectTable(id: int)
      modifies this
      ensures selectedTable == Some(id) && tables == old(tables)
    {
      selectedTable := Some(id);
    }

    /** `handleVerifyTable`, rebuilding the list entry by entry; badges that agreed with their counters still do. */
    method VerifyTable(id: int)
      requires Valid()
      modifies this
      ensures tables == VerifyTables(old(tables), id)
      ensures selectedTable == old(selectedTable)
      ensures Valid()
      ensures AllConsistent(old(tables)) ==> AllConsistent(tables)
    {
      var next: seq<Table> := [];
      var i := 0;
      while i < |tables|
        invariant 0 <= i <= |tables|
        invariant next == VerifyTables(tables, id)[..i]
      {
        var t := tables[i];
        next := next + [if t.id == id then Verify(t) else t];
        i := i + 1;
      }
      if AllConsistent(tables) {
        VerifyKeepsConsistent(tables, id);
      }
      assert forall k | 0 <= k < |next| :: next[k].id == tables[k].id;
      tables := next;
    }

    /** `handleEditComplete` as written: the received object replaces the table, then the dialog closes. */
    method HandleEditComplete(o: Outcome)
      requires Valid()
      modifies this
      ensures tables == EditCompleteAsWritten(old(tables), o)
      ensures selectedTable == None
      ensures Valid()
    {
      var received := match o
        case Saved(v) => SavedObject(v)
        case Cancelled(c) => c;
      var next: seq<Table> := [];
      var i := 0;
      while i < |tables|
        invariant 0 <= i <= |tables|
        invariant next == EditCompleteAsWritten(tables, o)[..i]
      {
        var t := tables[i];
        next := next + [if t.id == received.id then received else t];
        i := i + 1;
      }
      EditCompleteKeepsDistinctIds(tables, o);
      tables := next;
      selectedTable := None;
    }
  }
}
