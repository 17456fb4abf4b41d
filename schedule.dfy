/**
 * What a schedule hands the engine: the command, its optional numeric value
 * and, for MESSAGE, an optional message target; and the configuration the
 * engine reads while it runs.
 */
module Schedule {
  import opened Tesla

  datatype Option<T> = None | Some(value: T)

  /** ScheduleItem.Command. */
  datatype Command =
    | ChargeSet | ChargeOn | ChargeOff
    | HvacOn | HvacOff
    | Awake | Sleep
    | Unplugged | Message

  /** The active recipient and templates of a message; null in the source
      is `None`. */
  datatype MessageTarget = MessageTarget(email: string, subject: string, message: string)

  /** The preferences the engine reads. */
  datatype Prefs = Prefs(
    safeIncludesMinCharge: bool,
    safeIncludesPluggedIn: bool,
    notificationAddress: string)

  /** Everything the engine consults but never changes: preferences, the
      temperature unit last shown by the UI, ScheduleItem.commandToName,
      MessageTemplate rendering, and the collaborators. */
  datatype Context = Context(
    prefs: Prefs,
    temperatureUnits: string,
    commandName: Command -> string,
    render: string -> string,
    world: World)

  /** `equalsIgnoreCase("F")`. */
  predicate IsFahrenheit(units: string) {
    units == "F" || units == "f"
  }
}
