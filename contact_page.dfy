/**
 * The contact form: a record of five fields updated one at a time,
 * cleared after sending or on Clear.
 */
module ContactPage {

  datatype FormData = FormData(name: string, email: string, subject: string, message: string, kind: string)

  /** The keys `handleInputChange` is called with. */
  datatype Field = Name | Email | Subject | Message | Kind

  function Get(d: FormData, f: Field): string {
    match f
    case Name => d.name
    case Email => d.email
    case Subject => d.subject
    case Message => d.message
    case Kind => d.kind
  }

  /** `{ ...prev, [field]: value }`. */
  function Updated(d: FormData, field: Field, value: string): (r: FormData)
    ensures forall f :: Get(r, f) == if f == field then value else Get(d, f)
  {
    match field
    case Name => d.(name := value)
    case Email => d.(email := value)
    case Subject => d.(subject := value)
    case Message => d.(message := value)
    case Kind => d.(kind := value)
  }

  /** Two records that agree on every field are equal. */
  lemma {:induction false} FieldsDetermine(a: FormData, b: FormData)
    requires forall f :: Get(a, f) == Get(b, f)
    ensures a == b
  {
    assert Get(a, Name) == Get(b, Name) && Get(a, Email) == Get(b, Email);
    assert Get(a, Subject) == Get(b, Subject) && Get(a, Message) == Get(b, Message);
    assert Get(a, Kind) == Get(b, Kind);
  }

  /** The last write to a field wins, and writes to different fields commute. */
  lemma UpdateLaws(d: FormData, f: Field, g: Field, v: string, w: string)
    ensures Updated(Updated(d, f, v), f, w) == Updated(d, f, w)
    ensures f != g ==> Updated(Updated(d, f, v), g, w) == Updated(Updated(d, g, w), f, v)
    ensures Updated(d, f, Get(d, f)) == d
  {
    FieldsDetermine(Updated(Updated(d, f, v), f, w), Updated(d, f, w));
    if f != g {
      FieldsDetermine(Updated(Updated(d, f, v), g, w), Updated(Updated(d, g, w), f, v));
    }
    FieldsDetermine(Updated(d, f, Get(d, f)), d);
  }

  /** The state the page starts in, and returns to after sending or clearing. */
  function Blank(): (r: FormData)
    ensures forall f | f != Kind :: Get(r, f) == ""
    ensures r.kind == "general"
  {
    FormData("", "", "", "", "general")
  }

  /** The `value`s of the inquiry type buttons. */
  function InquiryTypes(): seq<string> {
    ["general", "support", "bug", "feature", "tournament", "other"]
  }

  /** Send is disabled iff one of the four text fields is empty; the inquiry type never matters. */
  predicate SendDisabled(d: FormData) {
    d.name == "" || d.email == "" || d.subject == "" || d.message == ""
  }

  lemma SendDisabledIff(d: FormData, kind: string)
    ensures SendDisabled(d) <==> exists f | f != Kind :: Get(d, f) == ""
    ensures SendDisabled(d) <==> SendDisabled(Updated(d, Kind, kind))
    ensures SendDisabled(Blank())
  {
    if SendDisabled(d) {
      if d.name == "" { assert Get(d, Name) == ""; }
      else if d.email == "" { assert Get(d, Email) == ""; }
      else if d.subject == "" { assert Get(d, Subject) == ""; }
      else { assert Get(d, Message) == ""; }
    }
  }

  class ContactForm {
    var formData: FormData
    var sentToasts: nat

    constructor ()
      ensures formData == Blank() && sentToasts == 0
    {
      formData := Blank();
      sentToasts := 0;
    }

    /** `handleInputChange(field, value)`. */
    method HandleInputChange(field: Field, value: string)
      modifies this
      ensures formData == Updated(old(formData), field, value)
      ensures sentToasts == old(sentToasts)
    {
      formData := Updated(formData, field, value);
    }

    /** An inquiry type button. */
    method SelectType(kind: string)
      modifies this
      ensures formData.kind == kind
      ensures forall f | f != Kind :: Get(formData, f) == Get(old(formData), f)
      ensures sentToasts == old(sentToasts)
    {
      HandleInputChange(Kind, kind);
    }

    /** `handleSubmit`: the confirmation toast, then the blank form. */
    method HandleSubmit()
      modifies this
      ensures formData == Blank() && sentToasts == old(sentToasts) + 1
    {
      sentToasts := sentToasts + 1;
      formData := Blank();
    }

    /** Clear: the same blank form, without a toast. */
    method Clear()
      modifies this
      ensures formData == Blank() && sentToasts == old(sentToasts)
    {
      formData := Blank();
    }
  }
}
