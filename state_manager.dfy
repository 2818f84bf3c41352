/**
 * The types the flight form's reducer is defined over: one field of the
 * form, the whole form, the six action names and the actions themselves.
 */
module StateManager {
  import opened Wrappers

  /** A field's value is either a string or a boolean (a checkbox). */
  datatype FieldValue = Str(s: string) | Bool(b: bool)

  /** One input slot of the form; `error` is `None` where the source allows `null`. */
  datatype StateField = StateField(
    name: string,
    labelText: string,
    value: FieldValue,
    inputType: string,
    error: Option<string>,
    touched: bool)

  /** The whole form: its fields keyed by field name, and whether a submit is in flight. */
  datatype StateForm = StateForm(fields: map<string, StateField>, isSubmitting: bool)

  /** The names of the six actions. */
  datatype ReducerActionName =
    | FieldChangeName
    | FieldBlurName
    | FormSubmitName
    | FormSubmitSuccessName
    | FormSubmitErrorName
    | FormResetName

  /** Every action name, each exactly once. */
  const AllActionNames: set<ReducerActionName> :=
    {FieldChangeName, FieldBlurName, FormSubmitName, FormSubmitSuccessName, FormSubmitErrorName, FormResetName}

  /** The six string values of the enumeration. */
  const TagValues: set<string> :=
    {"FIELD_CHANGE", "FIELD_BLUR", "FORM_SUBMIT", "SUBMIT_SUCCESS", "SUBMIT_ERROR", "RESET_FORM"}

  /** The string tag the enumeration gives each action name. */
  function Tag(n: ReducerActionName): (r: string)
    ensures r in TagValues
  {
    match n
    case FieldChangeName => "FIELD_CHANGE"
    case FieldBlurName => "FIELD_BLUR"
    case FormSubmitName => "FORM_SUBMIT"
    case FormSubmitSuccessName => "SUBMIT_SUCCESS"
    case FormSubmitErrorName => "SUBMIT_ERROR"
    case FormResetName => "RESET_FORM"
  }

  /** The action name whose tag is `t`, if there is one. */
  function NameOfTag(t: string): (r: Option<ReducerActionName>)
    ensures r.Some? ==> Tag(r.value) == t
  {
    if t == "FIELD_CHANGE" then Some(FieldChangeName)
    else if t == "FIELD_BLUR" then Some(FieldBlurName)
    else if t == "FORM_SUBMIT" then Some(FormSubmitName)
    else if t == "SUBMIT_SUCCESS" then Some(FormSubmitSuccessName)
    else if t == "SUBMIT_ERROR" then Some(FormSubmitErrorName)
    else if t == "RESET_FORM" then Some(FormResetName)
    else None
  }

  /** The six tags are pairwise distinct, so a tag identifies its action name. */
  lemma TagsDistinct(m: ReducerActionName, n: ReducerActionName)
    ensures Tag(m) == Tag(n) <==> m == n
    ensures NameOfTag(Tag(n)) == Some(n)
  {
  }

  /** There are exactly six action names. */
  lemma SixActionNames(n: ReducerActionName)
    ensures n in AllActionNames
    ensures |AllActionNames| == 6
    ensures |TagValues| == 6
  {
  }

  /**
   * An action. Only a field change carries a value, and that value is a string;
   * a submit error carries a field name and a message.
   */
  datatype ReducerAction =
    | FieldChange(field: string, value: string)
    | FieldBlur(field: string)
    | FormSubmit
    | FormSubmitSuccess
    | FormSubmitError(field: string, error: string)
    | FormReset
  {
    /** The action's name (its `type` tag in the source). */
    function Kind(): (r: ReducerActionName)
      ensures r == FieldChangeName <==> FieldChange?
      ensures r == FieldBlurName <==> FieldBlur?
      ensures r == FormSubmitName <==> FormSubmit?
      ensures r == FormSubmitSuccessName <==> FormSubmitSuccess?
      ensures r == FormSubmitErrorName <==> FormSubmitError?
      ensures r == FormResetName <==> FormReset?
    {
      match this
      case FieldChange(_, _) => FieldChangeName
      case FieldBlur(_) => FieldBlurName
      case FormSubmit => FormSubmitName
      case FormSubmitSuccess => FormSubmitSuccessName
      case FormSubmitError(_, _) => FormSubmitErrorName
      case FormReset => FormResetName
    }
  }

  /** Two actions with the same name have the same constructor, so a match over names is a match over actions. */
  lemma KindDeterminesShape(a: ReducerAction, b: ReducerAction)
    ensures a.Kind() == b.Kind() <==>
      (a.FieldChange? && b.FieldChange?) || (a.FieldBlur? && b.FieldBlur?) ||
      (a.FormSubmit? && b.FormSubmit?) || (a.FormSubmitSuccess? && b.FormSubmitSuccess?) ||
      (a.FormSubmitError? && b.FormSubmitError?) || (a.FormReset? && b.FormReset?)
  {
  }
}
