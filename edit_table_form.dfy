/**
 * The form for editing a table: the schema (the add rules plus the
 * numeric fields), defaults taken from the table, and what it hands back
 * to its caller on save and on cancel.
 */
module EditTableForm {
  import opened JsText
  import opened TableRecord
  import AddTableForm

  /** The values the schema returns: exactly its own keys, so no verification fields. */
  datatype FormValues = FormValues(
    id: int, name: string, address: string, isPaid: bool, fee: Option<string>,
    hasBalls: bool, condition: string, notes: Option<string>,
    rating: real, reviews: int, lat: real, lng: real)

  /** The string rules; the numeric fields are numbers by construction. */
  predicate SchemaAccepts(v: FormValues) {
    AddTableForm.NameRule(v.name) && AddTableForm.AddressRule(v.address)
    && AddTableForm.ValidCondition(v.condition)
  }

  /** The fields the two table forms share. */
  function AsAddValues(v: FormValues): AddTableForm.FormValues {
    AddTableForm.FormValues(v.name, v.address, v.isPaid, v.fee, v.hasBalls, v.condition, v.notes)
  }

  /** Editing applies the same rules as adding. */
  lemma SameRulesAsAdd(v: FormValues)
    ensures SchemaAccepts(v) <==> AddTableForm.SchemaAccepts(AsAddValues(v))
  {
  }

  /** `value || ""` for an optional string: missing and empty both give "". */
  function OrEmpty(o: Option<string>): (r: string)
    ensures o.Some? ==> r == o.value
    ensures o.None? ==> r == ""
  {
    match o case Some(s) => s case None => ""
  }

  /** `{...table, fee: table.fee || "", notes: table.notes || ""}`, keeping the schema's keys. */
  function DefaultValues(t: Table): (r: FormValues)
    ensures r.fee.Some? && r.notes.Some?
  {
    FormValues(t.id, t.name, t.address, t.isPaid, Some(OrEmpty(t.fee)), t.hasBalls, t.condition,
               Some(OrEmpty(t.notes)), t.rating, t.reviews, t.lat, t.lng)
  }

  /** The table with the edited fields written over it, keeping its verification fields. */
  function Overwrite(t: Table, v: FormValues): (r: Table)
    ensures r.verificationCount == t.verificationCount && r.isVerified == t.isVerified
    ensures DefaultValues(r) == v.(fee := Some(OrEmpty(v.fee)), notes := Some(OrEmpty(v.notes)))
  {
    t.(id := v.id, name := v.name, address := v.address, isPaid := v.isPaid, fee := v.fee,
       hasBalls := v.hasBalls, condition := v.condition, notes := v.notes,
       rating := v.rating, reviews := v.reviews, lat := v.lat, lng := v.lng)
  }

  /** Saving the untouched defaults changes nothing but a missing fee or notes, which become "". */
  lemma SavingDefaultsKeepsTable(t: Table)
    ensures Overwrite(t, DefaultValues(t)) == t.(fee := Some(OrEmpty(t.fee)), notes := Some(OrEmpty(t.notes)))
  {
  }

  /** The form opened on any listed table starts out acceptable. */
  lemma MockDefaultsAccepted()
    ensures forall i | 0 <= i < |MockTables()| :: SchemaAccepts(DefaultValues(MockTables()[i]))
  {
  }

  /** What `onComplete` receives: the validated values on save, the original table on cancel. */
  datatype Outcome = Saved(values: FormValues) | Cancelled(table: Table)

  class EditForm {
    const table: Table
    var isSubmitting: bool
    var pending: Option<FormValues>
    var completed: seq<Outcome>

    constructor (t: Table)
      ensures table == t && !isSubmitting && pending == None && completed == []
    {
      table := t;
      isSubmitting := false;
      pending := None;
      completed := [];
    }

    /** Save is disabled while submitting. */
    function SaveDisabled(): bool
      reads this
    {
      isSubmitting
    }

    /** `onSubmit`, reached only with values the schema accepts. */
    method Submit(v: FormValues)
      modifies this
      ensures SchemaAccepts(v) ==> isSubmitting && pending == Some(v)
      ensures !SchemaAccepts(v) ==> isSubmitting == old(isSubmitting) && pending == old(pending)
      ensures completed == old(completed)
    {
      if SchemaAccepts(v) {
        isSubmitting := true;
        pending := Some(v);
      }
    }

    /** The timer's body: `onComplete(values)` and the flag reset. */
    method CompleteSubmit()
      requires pending.Some?
      modifies this
      ensures completed == old(completed) + [Saved(old(pending).value)]
      ensures !isSubmitting && pending == None
    {
      completed := completed + [Saved(pending.value)];
      isSubmitting := false;
      pending := None;
    }

    /** Cancel: `onComplete(table)` with the table as it was given. */
    method Cancel()
      modifies this
      ensures completed == old(completed) + [Cancelled(table)]
      ensures isSubmitting == old(isSubmitting) && pending == old(pending)
    {
      completed := completed + [Cancelled(table)];
    }
  }
}
