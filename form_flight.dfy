/**
 * The flight form's state machine: the fixed initial form, the per-field
 * validator, the reducer over the six actions, the effect of a sequence of
 * dispatches, and the component state that `useReducer` holds.
 */
module FormFlight {
  import opened Wrappers
  import opened StateManager

  /** The nine field names of the form. */
  const FieldNames: set<string> :=
    {"aircraftType", "registration", "departure", "arrival", "departureTime",
     "arrivalTime", "totalTime", "pilotInCommand", "remarks"}

  /** A blank field: no error yet and not touched. */
  function Blank(name: string, labelText: string, value: FieldValue, inputType: string): (r: StateField)
  {
    StateField(name, labelText, value, inputType, Some(""), false)
  }

  /** The form as it is mounted and as it is restored by a reset or a successful submit. */
  function InitialState(): (s: StateForm)
    ensures s.fields.Keys == FieldNames
    ensures forall k :: k in s.fields ==> s.fields[k].name == k
    ensures forall k :: k in s.fields ==>
      s.fields[k].value == if k == "pilotInCommand" then Bool(true) else Str("")
    ensures forall k :: k in s.fields ==> s.fields[k].error == Some("") && !s.fields[k].touched
    ensures !s.isSubmitting
  {
    StateForm(
      map[
        "aircraftType" := Blank("aircraftType", "Aircraft type", Str(""), "text"),
        "registration" := Blank("registration", "Registration", Str(""), "text"),
        "departure" := Blank("departure", "Departure airfield", Str(""), "text"),
        "arrival" := Blank("arrival", "Arrival airfield", Str(""), "text"),
        "departureTime" := Blank("departureTime", "Departure time", Str(""), "datetime-local"),
        "arrivalTime" := Blank("arrivalTime", "Arrival time", Str(""), "datetime-local"),
        "totalTime" := Blank("totalTime", "Total time", Str(""), "number"),
        "pilotInCommand" := Blank("pilotInCommand", "Pilot in command", Bool(true), "checkbox"),
        "remarks" := Blank("remarks", "Remarks", Str(""), "text")
      ],
      false)
  }

  /** The initial form has exactly nine fields. */
  lemma NineFields()
    ensures |InitialState().fields| == 9
  {
  }

  const AircraftTypeMessage := "Username must be at least 3 characters"
  const DepartureTimeMessage := "Please enter a valid email"
  const ArrivalTimeMessage := "Password must be at least 6 characters"

  /**
   * The error message for `value` in field `field`, "" when it passes. Only
   * three fields are checked, with placeholder rules: at least 3 characters,
   * contains an '@', at least 6 characters.
   */
  function ValidateField(field: string, value: string): (r: string)
    ensures field == "aircraftType" ==> (r != "" <==> |value| < 3)
    ensures field == "departureTime" ==> (r != "" <==> '@' !in value)
    ensures field == "arrivalTime" ==> (r != "" <==> |value| < 6)
    ensures field !in {"aircraftType", "departureTime", "arrivalTime"} ==> r == ""
    ensures r == "" || r == AircraftTypeMessage || r == DepartureTimeMessage || r == ArrivalTimeMessage
  {
    if field == "aircraftType" then
      (if |value| < 3 then AircraftTypeMessage else "")
    else if field == "departureTime" then
      (if '@' !in value then DepartureTimeMessage else "")
    else if field == "arrivalTime" then
      (if |value| < 6 then ArrivalTimeMessage else "")
    else ""
  }

  /**
   * What a dispatch produces: the next form, or the TypeError raised when a
   * field action names a key the form does not have.
   */
  datatype Outcome = Next(state: StateForm) | Throws(field: string)

  /** The reducer: the form after one action. */
  function FormReducer(s: StateForm, a: ReducerAction): (r: Outcome)
    ensures r.Throws? <==> (a.FieldChange? || a.FieldBlur?) && a.field !in s.fields
    ensures r.Next? && !(a.FormReset? || a.FormSubmitSuccess?) ==> r.state.fields.Keys == s.fields.Keys
    ensures a.FormReset? || a.FormSubmitSuccess? ==> r == Next(InitialState())
  {
    match a
    case FieldChange(f, v) =>
      if f !in s.fields then Throws(f)
      else
        var field := s.fields[f].(value := Str(v), error := Some(ValidateField(f, v)));
        Next(s.(fields := s.fields[f := field]))
    case FieldBlur(f) =>
      if f !in s.fields then Throws(f)
      else Next(s.(fields := s.fields[f := s.fields[f].(touched := true)]))
    case FormSubmit =>
      Next(s.(isSubmitting := true))
    case FormSubmitSuccess =>
      Next(InitialState())
    case FormSubmitError(_, _) =>
      Next(s.(isSubmitting := false))
    case FormReset =>
      Next(InitialState())
  }

  /** A field change stores the string and its verdict and leaves everything else alone. */
  lemma FieldChangeEffect(s: StateForm, f: string, v: string)
    requires f in s.fields
    ensures FormReducer(s, FieldChange(f, v)).Next?
    ensures var t := FormReducer(s, FieldChange(f, v)).state;
      && f in t.fields
      && t.fields[f].value == Str(v)
      && t.fields[f].error == Some(ValidateField(f, v))
      && t.fields[f].name == s.fields[f].name
      && t.fields[f].labelText == s.fields[f].labelText
      && t.fields[f].inputType == s.fields[f].inputType
      && t.fields[f].touched == s.fields[f].touched
      && (forall k :: k in s.fields && k != f ==> k in t.fields && t.fields[k] == s.fields[k])
      && t.isSubmitting == s.isSubmitting
  {
  }

  /** A field blur marks the field touched and changes nothing else. */
  lemma FieldBlurEffect(s: StateForm, f: string)
    requires f in s.fields
    ensures FormReducer(s, FieldBlur(f)).Next?
    ensures var t := FormReducer(s, FieldBlur(f)).state;
      && f in t.fields
      && t.fields[f] == s.fields[f].(touched := true)
      && (forall k :: k in s.fields && k != f ==> k in t.fields && t.fields[k] == s.fields[k])
      && t.isSubmitting == s.isSubmitting
  {
  }

  /** Blurring a field twice is the same as blurring it once. */
  lemma FieldBlurIdempotent(s: StateForm, f: string)
    requires f in s.fields
    ensures var once := FormReducer(s, FieldBlur(f));
      once.Next? && FormReducer(once.state, FieldBlur(f)) == once
  {
  }

  /** Submitting raises the flag and keeps every field. */
  lemma FormSubmitEffect(s: StateForm)
    ensures FormReducer(s, FormSubmit) == Next(StateForm(s.fields, true))
  {
  }

  /** A submit error lowers the flag and keeps every field; its payload is not used. */
  lemma FormSubmitErrorEffect(s: StateForm, f: string, e: string, f': string, e': string)
    ensures FormReducer(s, FormSubmitError(f, e)) == Next(StateForm(s.fields, false))
    ensures FormReducer(s, FormSubmitError(f, e)) == FormReducer(s, FormSubmitError(f', e'))
  {
  }

  /** A reset and a successful submit both restore the initial form, whatever the form was. */
  lemma ResetAndSuccessRestoreInitial(s: StateForm, s': StateForm)
    ensures FormReducer(s, FormReset) == FormReducer(s', FormReset) == Next(InitialState())
    ensures FormReducer(s, FormSubmitSuccess) == FormReducer(s', FormSubmitSuccess) == Next(InitialState())
  {
  }

  // ---------------------------------------------------------------------------
  // Invariants of the form and their preservation over a sequence of dispatches

  /** Exactly the nine declared fields, each stored under its own name. */
  predicate WellFormed(s: StateForm)
  {
    && s.fields.Keys == FieldNames
    && forall k :: k in s.fields ==> s.fields[k].name == k
  }

  /** An action that names a field names one of the declared fields. */
  predicate Declared(a: ReducerAction)
  {
    (a.FieldChange? || a.FieldBlur?) ==> a.field in FieldNames
  }

  /** The shown error of field `k` is either empty or the validator's verdict on its current value. */
  predicate ErrorSound(k: string, f: StateField)
  {
    f.error == Some("") || (f.value.Str? && f.error == Some(ValidateField(k, f.value.s)))
  }

  /** Every field's error is sound. */
  predicate ErrorsSound(s: StateForm)
  {
    forall k :: k in s.fields ==> ErrorSound(k, s.fields[k])
  }

  /** Every field touched in `s` is still present and touched in `t`. */
  predicate TouchedKept(s: StateForm, t: StateForm)
  {
    forall k :: k in s.fields && s.fields[k].touched ==> k in t.fields && t.fields[k].touched
  }

  /** The form after dispatching `acts` in order, stopping at the first action that throws. */
  function Run(s: StateForm, acts: seq<ReducerAction>): (r: Outcome)
    ensures acts == [] ==> r == Next(s)
    ensures r.Throws? ==> exists i :: 0 <= i < |acts| && (acts[i].FieldChange? || acts[i].FieldBlur?) && acts[i].field == r.field
    decreases |acts|
  {
    if acts == [] then Next(s)
    else match FormReducer(s, acts[0])
      case Throws(f) => Throws(f)
      case Next(t) => Run(t, acts[1..])
  }

  /** Dispatching `a` and then `b` is dispatching `a + b`; a throw in `a` ends the run. */
  lemma {:induction false} RunConcat(s: StateForm, a: seq<ReducerAction>, b: seq<ReducerAction>)
    ensures Run(s, a + b) == if Run(s, a).Throws? then Run(s, a) else Run(Run(s, a).state, b)
    decreases |a|
  {
    if a != [] {
      assert (a + b)[0] == a[0];
      assert (a + b)[1..] == a[1..] + b;
      if FormReducer(s, a[0]).Next? {
        RunConcat(FormReducer(s, a[0]).state, a[1..], b);
      }
    } else {
      assert a + b == b;
    }
  }

  /** The initial form is well formed and shows no unsound error. */
  lemma InitialStateInvariants()
    ensures WellFormed(InitialState()) && ErrorsSound(InitialState())
  {
  }

  /** One declared action on a well-formed form does not throw and keeps both invariants. */
  lemma ReducerKeepsInvariants(s: StateForm, a: ReducerAction)
    requires WellFormed(s) && ErrorsSound(s) && Declared(a)
    ensures FormReducer(s, a).Next?
    ensures WellFormed(FormReducer(s, a).state) && ErrorsSound(FormReducer(s, a).state)
  {
  }

  /**
   * Any sequence of declared actions from a well-formed form never throws, and
   * the result is well formed and shows only the validator's verdicts.
   */
  lemma {:induction false} RunKeepsInvariants(s: StateForm, acts: seq<ReducerAction>)
    requires WellFormed(s) && ErrorsSound(s)
    requires forall i :: 0 <= i < |acts| ==> Declared(acts[i])
    ensures Run(s, acts).Next?
    ensures WellFormed(Run(s, acts).state) && ErrorsSound(Run(s, acts).state)
    decreases |acts|
  {
    if acts != [] {
      ReducerKeepsInvariants(s, acts[0]);
      var t := FormReducer(s, acts[0]).state;
      RunKeepsInvariants(t, acts[1..]);
    }
  }

  /** From the initial form, every run of declared actions keeps the form well formed. */
  lemma MountedFormStaysWellFormed(acts: seq<ReducerAction>)
    requires forall i :: 0 <= i < |acts| ==> Declared(acts[i])
    ensures Run(InitialState(), acts).Next?
    ensures WellFormed(Run(InitialState(), acts).state)
    ensures ErrorsSound(Run(InitialState(), acts).state)
  {
    InitialStateInvariants();
    RunKeepsInvariants(InitialState(), acts);
  }

  /** Only a reset or a successful submit can clear a touched flag. */
  lemma {:induction false} TouchedIsMonotone(s: StateForm, acts: seq<ReducerAction>)
    requires forall i :: 0 <= i < |acts| ==> !acts[i].FormReset? && !acts[i].FormSubmitSuccess?
    ensures Run(s, acts).Next? ==> TouchedKept(s, Run(s, acts).state)
    decreases |acts|
  {
    if acts != [] && FormReducer(s, acts[0]).Next? {
      var t := FormReducer(s, acts[0]).state;
      assert TouchedKept(s, t);
      TouchedIsMonotone(t, acts[1..]);
    }
  }

  /** Changing then blurring the aircraft type stores "C172", passes validation and marks it touched. */
  lemma ChangeThenBlurAircraftType()
    ensures var r := Run(InitialState(), [FieldChange("aircraftType", "C172"), FieldBlur("aircraftType")]);
      && r.Next?
      && "aircraftType" in r.state.fields
      && r.state.fields["aircraftType"].value == Str("C172")
      && r.state.fields["aircraftType"].error == Some("")
      && r.state.fields["aircraftType"].touched
  {
  }

  /** A submit followed by a submit error leaves the departure error as it was: the payload is not merged. */
  lemma SubmitErrorDoesNotMergeError()
    ensures var r := Run(InitialState(), [FormSubmit, FormSubmitError("departure", "required")]);
      && r == Next(InitialState())
      && r.state.fields["departure"].error == Some("")
  {
  }

  // ---------------------------------------------------------------------------
  // The component's state, held by `useReducer` and changed by each dispatch

  /**
   * The form state of one mounted form component. `Dispatch` applies an action
   * the way the reducer's draft does, by assigning to the parts it changes.
   */
  class FormStore {
    var fields: map<string, StateField>
    var isSubmitting: bool

    /** The current form as a value. */
    function State(): (r: StateForm)
      reads this
    {
      StateForm(fields, isSubmitting)
    }

    /** Mounting the form starts from the initial form. */
    constructor ()
      ensures State() == InitialState()
    {
      fields := InitialState().fields;
      isSubmitting := InitialState().isSubmitting;
    }

    /**
     * Dispatches one action. When the reducer throws, `thrown` is set and the
     * form is unchanged; otherwise the form becomes the reducer's result.
     */
    method Dispatch(a: ReducerAction) returns (thrown: bool)
      modifies this
      ensures thrown == FormReducer(old(State()), a).Throws?
      ensures State() == if thrown then old(State()) else FormReducer(old(State()), a).state
    {
      thrown := false;
      match a
      case FieldChange(f, v) =>
        if f !in fields {
          thrown := true;
        } else {
          var draft := fields[f];
          draft := draft.(value := Str(v));
          draft := draft.(error := Some(ValidateField(f, v)));
          fields := fields[f := draft];
        }
      case FieldBlur(f) =>
        if f !in fields {
          thrown := true;
        } else {
          fields := fields[f := fields[f].(touched := true)];
        }
      case FormSubmit =>
        isSubmitting := true;
      case FormSubmitSuccess =>
        fields, isSubmitting := InitialState().fields, InitialState().isSubmitting;
      case FormSubmitError(_, _) =>
        isSubmitting := false;
      case FormReset =>
        fields, isSubmitting := InitialState().fields, InitialState().isSubmitting;
    }
  }
}
