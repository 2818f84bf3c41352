/**
 * The flight record handed to the logbook, and the factory that builds a
 * blank record or completes a partial one with defaults.
 */
module Flight {
  import opened Wrappers

  /** One logbook flight; `id` and `remarks` are optional, everything else is present. */
  datatype Flight = Flight(
    id: Option<int>,
    date: string,
    aircraftType: string,
    registration: string,
    departure: string,
    arrival: string,
    departureTime: string,
    arrivalTime: string,
    totalTime: string,
    pilotInCommand: bool,
    remarks: Option<string>)

  /** A flight in which any field may be missing (`Partial<Flight>`). */
  datatype PartialFlight = PartialFlight(
    id: Option<int>,
    date: Option<string>,
    aircraftType: Option<string>,
    registration: Option<string>,
    departure: Option<string>,
    arrival: Option<string>,
    departureTime: Option<string>,
    arrivalTime: Option<string>,
    totalTime: Option<string>,
    pilotInCommand: Option<bool>,
    remarks: Option<string>)

  /** The partial flight with no field at all (`{}`). */
  const NoFields: PartialFlight :=
    PartialFlight(None, None, None, None, None, None, None, None, None, None, None)

  /** A complete flight seen as a partial one: every required field is present. */
  function AsPartial(f: Flight): (p: PartialFlight)
    ensures Complete(p)
  {
    PartialFlight(f.id, Some(f.date), Some(f.aircraftType), Some(f.registration),
      Some(f.departure), Some(f.arrival), Some(f.departureTime), Some(f.arrivalTime),
      Some(f.totalTime), Some(f.pilotInCommand), f.remarks)
  }

  /** Every field that a `Flight` requires is present. */
  predicate Complete(p: PartialFlight)
  {
    && p.date.Some? && p.aircraftType.Some? && p.registration.Some?
    && p.departure.Some? && p.arrival.Some? && p.departureTime.Some?
    && p.arrivalTime.Some? && p.totalTime.Some? && p.pilotInCommand.Some?
  }

  /** `f` holds every field that `p` has, with the same value. */
  predicate Extends(f: Flight, p: PartialFlight)
  {
    && (p.id.Some? ==> f.id == p.id)
    && (p.date.Some? ==> f.date == p.date.value)
    && (p.aircraftType.Some? ==> f.aircraftType == p.aircraftType.value)
    && (p.registration.Some? ==> f.registration == p.registration.value)
    && (p.departure.Some? ==> f.departure == p.departure.value)
    && (p.arrival.Some? ==> f.arrival == p.arrival.value)
    && (p.departureTime.Some? ==> f.departureTime == p.departureTime.value)
    && (p.arrivalTime.Some? ==> f.arrivalTime == p.arrivalTime.value)
    && (p.totalTime.Some? ==> f.totalTime == p.totalTime.value)
    && (p.pilotInCommand.Some? ==> f.pilotInCommand == p.pilotInCommand.value)
    && (p.remarks.Some? ==> f.remarks == p.remarks)
  }

  /** `f` holds the default for every field that `p` lacks. */
  predicate DefaultsWhereMissing(f: Flight, p: PartialFlight)
  {
    && (p.id.None? ==> f.id.None?)
    && (p.date.None? ==> f.date == "")
    && (p.aircraftType.None? ==> f.aircraftType == "")
    && (p.registration.None? ==> f.registration == "")
    && (p.departure.None? ==> f.departure == "")
    && (p.arrival.None? ==> f.arrival == "")
    && (p.departureTime.None? ==> f.departureTime == "")
    && (p.arrivalTime.None? ==> f.arrivalTime == "")
    && (p.totalTime.None? ==> f.totalTime == "")
    && (p.pilotInCommand.None? ==> f.pilotInCommand)
    && (p.remarks.None? ==> f.remarks.None?)
  }

  /** The blank record: empty strings, pilot in command, no id and no remarks. */
  function Empty(): (f: Flight)
    ensures f == FromObject(NoFields)
  {
    Flight(None, "", "", "", "", "", "", "", "", true, None)
  }

  /**
   * Completes a partial flight: each missing field gets its default, each
   * present field is kept as it is.
   */
  function FromObject(p: PartialFlight): (f: Flight)
    ensures Extends(f, p)
    ensures DefaultsWhereMissing(f, p)
  {
    Flight(
      p.id,
      p.date.GetOr(""),
      p.aircraftType.GetOr(""),
      p.registration.GetOr(""),
      p.departure.GetOr(""),
      p.arrival.GetOr(""),
      p.departureTime.GetOr(""),
      p.arrivalTime.GetOr(""),
      p.totalTime.GetOr(""),
      p.pilotInCommand.GetOr(true),
      p.remarks)
  }

  /** Extending `p` with defaults where it is missing determines the flight. */
  lemma FromObjectUnique(p: PartialFlight, f: Flight)
    requires Extends(f, p) && DefaultsWhereMissing(f, p)
    ensures f == FromObject(p)
  {
  }

  /** A complete record comes back unchanged. */
  lemma FromObjectRoundTrip(f: Flight)
    ensures FromObject(AsPartial(f)) == f
  {
  }

  /** Completing the blank record gives the blank record. */
  lemma EmptyRoundTrip()
    ensures FromObject(AsPartial(Empty())) == Empty()
  {
  }

  /** Completing twice is completing once. */
  lemma FromObjectIdempotent(p: PartialFlight)
    ensures FromObject(AsPartial(FromObject(p))) == FromObject(p)
  {
  }

  /** A present `false` for pilot in command is kept; only a missing one becomes true. */
  lemma PilotInCommandFalseKept(p: PartialFlight)
    ensures FromObject(p).pilotInCommand <==> p.pilotInCommand != Some(false)
  {
  }
}
