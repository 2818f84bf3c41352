# Flight logbook entry form — a Dafny model

This project models the state logic of a small flight-logbook web form. The
form lets a pilot record one flight: aircraft type, registration, departure
and arrival airfields, departure and arrival times, total time, whether they
were pilot in command, and remarks.

Everything else in the application is rendering. The model covers three parts:

- **The form's state machine** (module `FormFlight`). It holds the fixed
  nine-field initial form and the per-field validator. It holds the reducer
  over the six actions: field change, field blur, submit, submit success,
  submit error and reset. The reducer is a pure function `FormReducer`. A
  field action on a key the form lacks is an error outcome (`Throws`),
  because the source's assignment `draft.fields[field].value = …` raises a
  TypeError there. `Run` gives the effect of a sequence of dispatches. The
  class `FormStore` is the state `useReducer` holds for one mounted form. Its
  `Dispatch` method changes the fields the way the reducer's immer draft
  does, and is proved equal to `FormReducer`.
- **The reducer's types** (module `StateManager`). These are the field
  record, the form, the six action names with their string tags, and the
  actions with their payloads. A field value is `Str` or `Bool`, and an error
  is an `Option<string>` (`None` for `null`).
- **The flight record factory** (module `Flight`). It has the `Flight` record,
  `Empty` and `FromObject`. `FromObject` completes a partial record: fields
  are `Option`s, and `??` becomes `GetOr`.

The validators are the code's placeholder checks, carried over exactly,
messages included:

- the aircraft type needs at least 3 characters;
- the departure time must contain an `@`;
- the arrival time needs at least 6 characters;
- every other field always passes.

A submit error only clears `isSubmitting`. The action still carries a field
and an error (src/components/StateManager.tsx:29). The only merge in the
code is a commented-out assignment of `payload.errors` to a top-level
`draft.errors` (src/components/FormFlight.tsx:61), and neither type declares
those properties. The model follows the code: `SubmitErrorDoesNotMergeError`
shows that the payload is ignored.

## Model

| member | source | states |
|---|---|---|
| `StateManager.Tag` | src/components/StateManager.tsx:15-22 | each action name's tag is one of the six string values of the enumeration |
| `StateManager.ReducerAction.Kind` | src/components/StateManager.tsx:24-30 | an action's `type` names exactly its own variant: each of the six names holds iff the action is that variant |
| `StateManager.NameOfTag` | src/components/StateManager.tsx:15-22 | a tag that names an action maps back to that action's name |
| `StateManager.TagsDistinct` | src/components/StateManager.tsx:15-22 | the six tags are pairwise distinct: equal tags iff equal names, and every tag maps back to its name |
| `StateManager.SixActionNames` | src/components/StateManager.tsx:15-22 | there are exactly six action names, every name is one of them, and there are exactly six tag values |
| `StateManager.KindDeterminesShape` | src/components/StateManager.tsx:24-30 | two actions share a name iff they are the same variant, so a match on the name is a match on the payload shape |
| `FormFlight.InitialState` | src/components/FormFlight.tsx:7-20 | the initial form has exactly the nine declared keys, each field's name equals its key, every value is "" except pilotInCommand which is true, all errors are "", nothing is touched and nothing is submitting |
| `FormFlight.NineFields` | src/components/FormFlight.tsx:7-20 | the initial form has nine fields |
| `FormFlight.ValidateField` | src/components/FormFlight.tsx:22-33 | aircraftType fails iff shorter than 3; departureTime fails iff it has no '@'; arrivalTime fails iff shorter than 6; every other name passes; the result is "" or one of the three messages |
| `FormFlight.FormReducer` | src/components/FormFlight.tsx:35-69 | throws exactly when a change or blur names a missing key; every other action keeps the key set, except reset and submit success, which give the initial form |
| `FormFlight.FieldChangeEffect` | src/components/FormFlight.tsx:37-42 | a change of an existing field stores the string and its validator verdict; the field's name, label, type and touched flag, every other field and isSubmitting are unchanged |
| `FormFlight.FieldBlurEffect` | src/components/FormFlight.tsx:44-48 | a blur of an existing field sets touched and changes nothing else |
| `FormFlight.FieldBlurIdempotent` | src/components/FormFlight.tsx:44-48 | blurring the same field twice gives the same form as blurring it once |
| `FormFlight.FormSubmitEffect` | src/components/FormFlight.tsx:50-53 | submit sets isSubmitting and keeps every field |
| `FormFlight.FormSubmitErrorEffect` | src/components/FormFlight.tsx:59-63 | a submit error clears isSubmitting and keeps every field; its field and error payload make no difference |
| `FormFlight.ResetAndSuccessRestoreInitial` | src/components/FormFlight.tsx:55-67 | reset and submit success give the initial form from any form, so the result does not depend on the prior form |
| `FormFlight.Run` | src/components/FormFlight.tsx:72 | successive dispatches into the hook: an empty sequence leaves the form as it is, and a run that throws names the field of one of its change or blur actions |
| `FormFlight.RunConcat` | src/components/FormFlight.tsx:72 | dispatching one sequence and then another is dispatching their concatenation, and a throw ends the run |
| `FormFlight.InitialStateInvariants` | src/components/FormFlight.tsx:7-20 | the initial form is well formed (nine keys, each field named by its key) and every shown error is sound |
| `FormFlight.ReducerKeepsInvariants` | src/components/FormFlight.tsx:35-69 | an action on declared fields does not throw on a well-formed form, and it keeps the form well formed with only validator verdicts as errors |
| `FormFlight.RunKeepsInvariants` | src/components/FormFlight.tsx:35-69 | any sequence of such actions never throws and keeps both invariants |
| `FormFlight.MountedFormStaysWellFormed` | src/components/FormFlight.tsx:72 | from the mounted initial form, every sequence of dispatches on declared fields succeeds and keeps both invariants |
| `FormFlight.TouchedIsMonotone` | src/components/FormFlight.tsx:35-69 | without a reset or submit success, a touched field stays present and touched |
| `FormFlight.ChangeThenBlurAircraftType` | src/components/FormFlight.tsx:37-48 | changing aircraftType to "C172" then blurring it gives value "C172", error "" and touched |
| `FormFlight.SubmitErrorDoesNotMergeError` | src/components/FormFlight.tsx:59-63 | after submit then a submit error naming departure, the departure error is still "" and the form is the initial one again |
| `FormFlight.FormStore.constructor` | src/components/FormFlight.tsx:72 | a mounted form starts from the initial form |
| `FormFlight.FormStore.Dispatch` | src/components/FormFlight.tsx:35-69 | dispatching an action replaces the held form with the reducer's result, or leaves it unchanged and reports the throw |
| `Wrappers.Option.GetOr` | src/types/Flight.ts:34-44 | `x ?? d` is the value when present and the default when missing |
| `Flight.Empty` | src/types/Flight.ts:16-30 | the blank record is what completing a record with no fields gives |
| `Flight.FromObject` | src/types/Flight.ts:32-46 | every present field is kept as given; missing strings become "", a missing pilotInCommand becomes true, and a missing id or remarks stays absent |
| `Flight.FromObjectUnique` | src/types/Flight.ts:32-46 | those two conditions determine the result completely |
| `Flight.FromObjectRoundTrip` | src/types/Flight.ts:34-44 | a complete record comes back unchanged |
| `Flight.EmptyRoundTrip` | src/types/Flight.ts:16-46 | completing the blank record gives the blank record |
| `Flight.FromObjectIdempotent` | src/types/Flight.ts:32-46 | completing a completed record changes nothing |
| `Flight.PilotInCommandFalseKept` | src/types/Flight.ts:43 | pilotInCommand comes out true iff it was not given as false, so a present false is kept |

## Left out

- Rendering: the JSX, CSS classes and `useCallback` event handlers of the form component (src/components/FormFlight.tsx:71-183). They only project the state.
- `handleSubmit`: its body is commented out and would be asynchronous I/O. Its dependency list names `state.errors`, which does not exist.
- The immer `produce` and React `useReducer` machinery. The reducer is a function from form to form. `FormStore` stands for the state the hook holds, without React's scheduling and re-rendering. Immer's freezing and sharing of unchanged objects are invisible in a value model.
- Keys inherited from a JavaScript object's prototype (such as `constructor`) are not modelled. A field action naming one would not throw in JavaScript; the model treats every key the form does not hold as missing.
- An action whose tag is none of the six: the typed action union excludes it, so the model's closed datatype has no such action.
- `ValidateField`: string length counts sequence elements, where JavaScript counts UTF-16 code units. The two differ only for characters outside the Basic Multilingual Plane.
- `Flight.FromObject`: `id` is modelled as an unbounded integer, where JavaScript's number may be fractional. `null` and a missing field are one `None`, because `??` treats them alike.
- The plain `useState` draft of the form (src/components/FlightEntryForm.tsx). Its one-key update duplicates the field change.
- The rendering component src/components/ComponentField.tsx. It shows an error iff the field is touched and the error is non-empty.
- The router shell src/App.tsx and the date helpers in src/utils/ToolsDate.ts, which wrap JavaScript's `Date`.
- `FormFlight.FormStore.Dispatch`: a TypeError raised by the reducer becomes the `thrown` flag with the form unchanged. Neither the exception itself nor what React then does with the form is modelled.
