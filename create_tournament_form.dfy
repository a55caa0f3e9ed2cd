/**
 * Creating a tournament: the schema (with the participant limit coerced
 * from the number input), the end-date picker's rule, and the two-step
 * flow of details followed by invitations.
 */
module CreateTournamentForm {
  import opened JsText
  import opened JsNumber

  /** The participant field holds the default number or the text typed into the number input. */
  datatype FieldValue = NumberInput(n: Number) | TextInput(text: string)

  /** `z.coerce.number()`: `Number(value)`. */
  function Coerce(v: FieldValue): Number {
    match v
    case NumberInput(n) => n
    case TextInput(s) => ToNumber(s)
  }

  /** `.int().min(4).max(64)` after coercion; NaN is refused as not a number. */
  predicate MaxParticipantsAccepted(v: FieldValue) {
    var n := Coerce(v);
    IsInteger(n) && 4.0 <= n.value <= 64.0
  }

  /** The form values. Dates are day keys; a missing date is `None`. */
  datatype TournamentValues = TournamentValues(
    title: string, description: Option<string>, startDate: Option<int>, endDate: Option<int>,
    location: string, maxParticipants: FieldValue)

  /** The values the schema returns, with the participant limit as a number. */
  datatype TournamentData = TournamentData(
    title: string, description: Option<string>, startDate: int, endDate: int,
    location: string, maxParticipants: int)

  /** Title and location of at least 3 characters, both dates, and an accepted participant limit; the description is free. */
  predicate SchemaAccepts(v: TournamentValues)
    ensures SchemaAccepts(v) ==> var n := Coerce(v.maxParticipants); n.Finite? && 4 <= n.value.Floor <= 64
  {
    |v.title| >= 3 && v.startDate.Some? && v.endDate.Some? && |v.location| >= 3
    && MaxParticipantsAccepted(v.maxParticipants)
  }

  /** Parsing with the schema: the data with the coerced limit, or nothing. */
  function Parse(v: TournamentValues): (r: Option<TournamentData>)
    ensures r.Some? <==> SchemaAccepts(v)
    ensures r.Some? ==> (
      r.value.title == v.title && r.value.location == v.location
      && r.value.description == v.description
      && Some(r.value.startDate) == v.startDate && Some(r.value.endDate) == v.endDate
      && r.value.maxParticipants as real == Coerce(v.maxParticipants).value
      && 4 <= r.value.maxParticipants <= 64)
  {
    if SchemaAccepts(v) then
      Some(TournamentData(v.title, v.description, v.startDate.value, v.endDate.value, v.location,
                          Coerce(v.maxParticipants).value.Floor))
    else None
  }

  /** The initial values, both dates today and a limit of 8. */
  function DefaultValues(today: int): TournamentValues {
    TournamentValues("", Some(""), Some(today), Some(today), "", NumberInput(Finite(8.0)))
  }

  /** The default limit is accepted; the empty title and location are not. */
  lemma DefaultValuesFacts(today: int)
    ensures MaxParticipantsAccepted(DefaultValues(today).maxParticipants)
    ensures !SchemaAccepts(DefaultValues(today))
  {
    assert (8.0).Floor == 8;
  }

  /** A limit typed as a whole number is accepted exactly when it lies in 4..64. */
  lemma TypedLimitAccepted(n: int)
    ensures MaxParticipantsAccepted(TextInput(IntToString(n))) <==> 4 <= n <= 64
  {
    ToNumberOfIntToString(n);
    assert (n as real).Floor == n;
  }

  /** A cleared field reads as 0 and is refused. */
  lemma EmptyLimitRefused()
    ensures Coerce(TextInput("")) == Finite(0.0)
    ensures !MaxParticipantsAccepted(TextInput(""))
  {
  }

  /** The schema does not relate the dates: an end before the start is accepted. */
  lemma DatesUnrelated()
    ensures SchemaAccepts(TournamentValues("Cup", None, Some(10), Some(5), "Pub", NumberInput(Finite(8.0))))
  {
    assert (8.0).Floor == 8;
  }

  /**
   * The end-date picker disables every day before the chosen start;
   * `date < undefined` is false, so with no start every day is offered.
   */
  predicate EndDayDisabled(day: int, startDate: Option<int>)
    ensures startDate.None? ==> !EndDayDisabled(day, startDate)
    ensures !EndDayDisabled(day, startDate) && startDate.Some? ==> day >= startDate.value
  {
    startDate.Some? && day < startDate.value
  }

  /** `Math.floor(Math.random() * 1000)` for a random value in [0, 1). */
  function MockTournamentId(random: real): (id: int)
    requires 0.0 <= random < 1.0
    ensures 0 <= id <= 999
    ensures id as real <= random * 1000.0 < id as real + 1.0
  {
    (random * 1000.0).Floor
  }

  // ---------------------------------------------------------------------
  // The two steps
  // ---------------------------------------------------------------------

  class TournamentForm {
    var values: TournamentValues
    var step: int
    var tournamentData: Option<TournamentData>
    /** Whether the parent passed `onTournamentCreated`. */
    const hasOnTournamentCreated: bool
    /** Every `{id, name}` passed to `onTournamentCreated`, oldest first. */
    var created: seq<(int, string)>
    var navigatedTo: Option<string>

    constructor (today: int, hasOnTournamentCreated: bool)
      ensures values == DefaultValues(today) && step == 1 && tournamentData == None
      ensures this.hasOnTournamentCreated == hasOnTournamentCreated
      ensures created == [] && navigatedTo == None
    {
      values := DefaultValues(today);
      step := 1;
      tournamentData := None;
      this.hasOnTournamentCreated := hasOnTournamentCreated;
      created := [];
      navigatedTo := None;
    }

    /** The title input. */
    method SetTitle(title: string)
      modifies this
      ensures values == old(values).(title := title)
      ensures step == old(step) && tournamentData == old(tournamentData)
      ensures created == old(created) && navigatedTo == old(navigatedTo)
    {
      values := values.(title := title);
    }

    /** The description text area. */
    method SetDescription(text: string)
      modifies this
      ensures values == old(values).(description := Some(text))
      ensures step == old(step) && tournamentData == old(tournamentData)
      ensures created == old(created) && navigatedTo == old(navigatedTo)
    {
      values := values.(description := Some(text));
    }

    /** The start-date picker: a day is picked, or the picked day is cleared. */
    method SetStartDate(date: Option<int>)
      modifies this
      ensures values == old(values).(startDate := date)
      ensures step == old(step) && tournamentData == old(tournamentData)
      ensures created == old(created) && navigatedTo == old(navigatedTo)
    {
      values := values.(startDate := date);
    }

    /** The end-date picker, which offers only the days it does not disable. */
    method SetEndDate(date: Option<int>)
      requires date.Some? ==> !EndDayDisabled(date.value, values.startDate)
      modifies this
      ensures values == old(values).(endDate := date)
      ensures step == old(step) && tournamentData == old(tournamentData)
      ensures created == old(created) && navigatedTo == old(navigatedTo)
    {
      values := values.(endDate := date);
    }

    /** The location input. */
    method SetLocation(location: string)
      modifies this
      ensures values == old(values).(location := location)
      ensures step == old(step) && tournamentData == old(tournamentData)
      ensures created == old(created) && navigatedTo == old(navigatedTo)
    {
      values := values.(location := location);
    }

    /** The participant-limit number input, as the text typed. */
    method SetMaxParticipants(text: string)
      modifies this
      ensures values == old(values).(maxParticipants := TextInput(text))
      ensures step == old(step) && tournamentData == old(tournamentData)
      ensures created == old(created) && navigatedTo == old(navigatedTo)
    {
      values := values.(maxParticipants := TextInput(text));
    }

    /**
     * A submit of the first step. For accepted values the parsed data is
     * stored; with a callback it receives a random id and the title and
     * the step stays, otherwise the form moves to step 2.
     */
    method SubmitFirstStep(random: real)
      requires 0.0 <= random < 1.0
      modifies this
      ensures Parse(old(values)).None? ==>
        tournamentData == old(tournamentData) && step == old(step) && created == old(created)
      ensures Parse(old(values)).Some? ==> tournamentData == Parse(old(values))
      ensures Parse(old(values)).Some? && hasOnTournamentCreated ==>
        step == old(step) && created == old(created) + [(MockTournamentId(random), old(values).title)]
      ensures Parse(old(values)).Some? && !hasOnTournamentCreated ==> step == 2 && created == old(created)
      ensures values == old(values) && navigatedTo == old(navigatedTo)
    {
      var data := Parse(values);
      if data.None? {
        return;
      }
      tournamentData := data;
      if hasOnTournamentCreated {
        var mockTournamentId := MockTournamentId(random);
        created := created + [(mockTournamentId, data.value.title)];
      } else {
        step := 2;
      }
    }

    /** The invitation step's Back button. */
    method Back()
      modifies this
      ensures step == 1
      ensures values == old(values) && tournamentData == old(tournamentData)
      ensures created == old(created) && navigatedTo == old(navigatedTo)
    {
      step := 1;
    }

    /** `handleInviteesSubmit`: nothing without stored data, otherwise on to the tournaments list. */
    method HandleInviteesSubmit(invitees: seq<string>)
      modifies this
      ensures navigatedTo == if old(tournamentData).None? then old(navigatedTo) else Some("/tournaments")
      ensures values == old(values) && step == old(step) && tournamentData == old(tournamentData)
      ensures created == old(created)
    {
      if tournamentData.None? {
        return;
      }
      navigatedTo := Some("/tournaments");
    }
  }

  /**
   * The picker checks the end day only against the start chosen at that
   * moment: picking the start again, later than the end, leaves values the
   * schema still accepts with the end before the start.
   */
  method LaterStartAccepted(today: int) returns (v: TournamentValues)
    ensures SchemaAccepts(v)
    ensures v.startDate == Some(today + 10) && v.endDate == Some(today + 7)
  {
    var form := new TournamentForm(today, false);
    form.SetTitle("Cup");
    form.SetLocation("Pub");
    form.SetStartDate(Some(today + 5));
    form.SetEndDate(Some(today + 7));
    form.SetStartDate(Some(today + 10));
    DefaultValuesFacts(today);
    v := form.values;
  }
}
