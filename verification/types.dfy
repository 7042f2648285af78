/** The records the core passes around (the interfaces of src/types/index.ts) and the
    small wrappers the model uses for JavaScript's `null`/`undefined` and for promises
    that reject. */
module Types {

  datatype Option<T> = None | Some(value: T)

  /** A read that either produced a value or threw (JSON.parse on a corrupt blob). */
  datatype Result<T> = Success(value: T) | Failure

  /** How an awaited storage write settled. */
  datatype Outcome = Resolved | Rejected

  /** One accelerometer packet as the wireless transport delivers it. */
  datatype Packet = Packet(timestamp: int, x: real, y: real, z: real)

  /** SensorReading: a timestamped 3-axis sample and its magnitude. */
  datatype Reading = Reading(timestamp: int, x: real, y: real, z: real, magnitude: real)

  /** The three severity labels of the app. */
  datatype Severity = Bajo | Moderado | Alto
  {
    /** The string stored in a session's tremorStatus field. */
    function Label(): string
    {
      match this
      case Bajo => "Bajo"
      case Moderado => "Moderado"
      case Alto => "Alto"
    }

    /** Position in the order Bajo < Moderado < Alto. */
    function Rank(): nat
    {
      match this
      case Bajo => 0
      case Moderado => 1
      case Alto => 2
    }
  }

  /** TremorSession. `tremorStatus` is the string found in storage: sessions built by the
      app always hold one of the three labels, imported ones may hold anything. */
  datatype Session = Session(
    id: string,
    startTime: int,
    endTime: int,
    duration: int,
    readings: seq<Reading>,
    tremorIndex: int,
    tremorStatus: string,
    heartRate: Option<int>,
    notes: Option<string>)

  /** HistoryFilters: every bound is optional. */
  datatype HistoryFilters = HistoryFilters(
    startDate: Option<int>,
    endDate: Option<int>,
    minTremorIndex: Option<int>,
    maxTremorIndex: Option<int>,
    status: Option<Severity>)

  /** An element of the `readings` array held in the current-session slot. The pause flow
      stores readings there and the sync bookkeeping stores session ids there, so once
      parsed back the array may hold either. */
  datatype SlotItem = Sample(reading: Reading) | PendingId(id: string)

  /** The Partial<TremorSession> object held in the current-session slot. */
  datatype CurrentSession = CurrentSession(
    id: Option<string>,
    startTime: Option<int>,
    readings: Option<seq<SlotItem>>)

  /** JavaScript truthiness of an optional string (`undefined` and "" are falsy). */
  predicate TruthyString(s: Option<string>) {
    s.Some? && s.value != ""
  }

  /** JavaScript truthiness of an optional number (`undefined` and 0 are falsy). */
  predicate TruthyNumber(n: Option<int>) {
    n.Some? && n.value != 0
  }
}
