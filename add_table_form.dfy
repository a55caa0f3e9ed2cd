/**
 * The form for adding a foosball table: its field rules, its defaults,
 * and the submitting flag around the simulated request.
 */
module AddTableForm {
  import opened JsText

  function Conditions(): seq<string> {
    ["Poor", "Average", "Good", "Very Good", "Excellent"]
  }

  /** `z.enum([...])` over the table conditions. */
  predicate ValidCondition(c: string) {
    c in Conditions()
  }

  /** `z.string().min(2)` for the name. */
  predicate NameRule(name: string) {
    |name| >= 2
  }

  /** `z.string().min(5)` for the address. */
  predicate AddressRule(address: string) {
    |address| >= 5
  }

  /** The values the form holds; fee and notes may be missing. */
  datatype FormValues = FormValues(
    name: string, address: string, isPaid: bool, fee: Option<string>,
    hasBalls: bool, condition: string, notes: Option<string>)

  /** The schema: name, address and condition rules; fee and notes are free. */
  predicate SchemaAccepts(v: FormValues) {
    NameRule(v.name) && AddressRule(v.address) && ValidCondition(v.condition)
  }

  function DefaultValues(): (r: FormValues)
    ensures !r.isPaid && r.hasBalls && r.condition == "Good"
    ensures r.name == "" && r.address == "" && r.fee == Some("") && r.notes == Some("")
  {
    FormValues("", "", false, Some(""), true, "Good", Some(""))
  }

  /** The untouched form is refused for its empty name and address, though its condition is valid. */
  lemma DefaultsRefused()
    ensures !SchemaAccepts(DefaultValues())
    ensures !NameRule(DefaultValues().name) && !AddressRule(DefaultValues().address)
    ensures ValidCondition(DefaultValues().condition)
  {
  }

  /** The fee input is shown only for a paid table. */
  predicate FeeFieldShown(v: FormValues) {
    v.isPaid
  }

  /** Whether the table is paid, and whatever fee or notes it carries, never decide acceptance. */
  lemma FeeAndNotesFree(v: FormValues, isPaid: bool, fee: Option<string>, notes: Option<string>)
    ensures SchemaAccepts(v) <==> SchemaAccepts(v.(isPaid := isPaid, fee := fee, notes := notes))
  {
  }

  /** Each of the five conditions, and nothing else, is accepted. */
  lemma ConditionIff(c: string)
    ensures ValidCondition(c) <==> c == "Poor" || c == "Average" || c == "Good" || c == "Very Good" || c == "Excellent"
  {
  }

  class AddForm {
    var isSubmitting: bool
    var pending: Option<FormValues>
    var completeCalls: nat

    constructor ()
      ensures !isSubmitting && pending == None && completeCalls == 0
    {
      isSubmitting := false;
      pending := None;
      completeCalls := 0;
    }

    /** The Add button is disabled while submitting. */
    function SubmitDisabled(): bool
      reads this
    {
      isSubmitting
    }

    /** `onSubmit`, reached only with values the schema accepts. */
    method Submit(v: FormValues)
      modifies this
      ensures SchemaAccepts(v) ==> isSubmitting && pending == Some(v) && completeCalls == old(completeCalls)
      ensures !SchemaAccepts(v) ==> isSubmitting == old(isSubmitting) && pending == old(pending) && completeCalls == old(completeCalls)
    {
      if SchemaAccepts(v) {
        isSubmitting := true;
        pending := Some(v);
      }
    }

    /** The timer's body: `onComplete()` and the flag reset. */
    method CompleteSubmit()
      requires pending.Some?
      modifies this
      ensures !isSubmitting && pending == None && completeCalls == old(completeCalls) + 1
    {
      completeCalls := completeCalls + 1;
      isSubmitting := false;
      pending := None;
    }

    /** Cancel calls `onComplete` straight away. */
    method Cancel()
      modifies this
      ensures completeCalls == old(completeCalls) + 1
      ensures isSubmitting == old(isSubmitting) && pending == old(pending)
    {
      completeCalls := completeCalls + 1;
    }
  }
}
