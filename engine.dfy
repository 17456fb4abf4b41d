/**
 * The scheduled-command execution engine of SchedulerController, stated as
 * functions from the controller's state before a step to its state after
 * it. The class in module Controller runs the same steps imperatively and
 * is proved to agree with these functions; the properties of the engine are
 * proved about them in module EngineProperties.
 */
module Engine {
  import opened Tesla
  import opened Schedule
  import opened Text
  import Inactivity

  /** A line of the activity log, with its report flag. */
  type Entry = (string, bool)

  /** What the engine reads and changes: the last charge state fetched, the
      activity log (newest first), the last reported activity, the two
      inactivity hints, and every collaborator call made so far. */
  datatype State = State(
    charge: ChargeState,
    log: seq<Entry>,
    activity: string,
    inactivityState: Inactivity.InactivityType,
    inactivityMode: Inactivity.InactivityType,
    trace: seq<Call>)

  /* ---------------------------------------------------------------------
   * Activity log
   * ------------------------------------------------------------------- */

  /** Prepends the entry; a reported entry also becomes the last activity. */
  function LogActivity(s: State, entry: string, report: bool): State {
    s.(log := [(entry, report)] + s.log,
       activity := if report then entry else s.activity)
  }

  /* ---------------------------------------------------------------------
   * Collaborator calls: each is appended to the trace and answered by the
   * world from the calls made before it
   * ------------------------------------------------------------------- */

  function Query(ctx: Context, s: State): State {
    s.(charge := ctx.world.QueryAnswer(s.trace), trace := s.trace + [Call.QueryCharge])
  }

  function Wake(s: State): State {
    s.(trace := s.trace + [Call.WakeUp])
  }

  function Invoke(ctx: Context, s: State, c: Call): (Result, State) {
    (ctx.world.CommandAnswer(s.trace, c), s.(trace := s.trace + [c]))
  }

  function Send(ctx: Context, s: State, c: Call): (bool, State) {
    (ctx.world.SendAnswer(s.trace, c), s.(trace := s.trace + [c]))
  }

  /* ---------------------------------------------------------------------
   * Waking the vehicle
   * ------------------------------------------------------------------- */

  const WakeAttempts := 20

  /** The retry loop from iteration `i` on: wake, query, stop at the first
      valid answer; after the last attempt report failure. */
  function WakeLoop(ctx: Context, s: State, i: nat): (bool, State)
    requires i <= WakeAttempts
    decreases WakeAttempts - i
  {
    if i == WakeAttempts then (false, s)
    else
      var t := Query(ctx, Wake(s));
      if t.charge.valid then (true, t) else WakeLoop(ctx, t, i + 1)
  }

  /** Marks the inactivity state awake, queries once, and only if that
      answer is invalid enters the retry loop. */
  function WakeAndGetChargeState(ctx: Context, s: State): (bool, State) {
    var t := Query(ctx, s.(inactivityState := Inactivity.Awake));
    if t.charge.valid then (true, t) else WakeLoop(ctx, t, 0)
  }

  /* ---------------------------------------------------------------------
   * Safety gate
   * ------------------------------------------------------------------- */

  const SafeThreshold := 25
  const InsufficientCharge := "Insufficient charge - aborted"
  const CantTellIfPluggedIn := "Can't tell if car is plugged in - aborted"
  const NotPluggedIn := "Car is not plugged in - aborted"

  predicate RequiresSafeMode(cmd: Command) {
    cmd == HvacOn
  }

  /** Why the gate refuses `cmd` on this charge state, if it does: the
      minimum-charge check first, then the plugged-in check. */
  function Denial(prefs: Prefs, cmd: Command, charge: ChargeState): Option<string> {
    if !RequiresSafeMode(cmd) then None
    else if prefs.safeIncludesMinCharge && charge.batteryPercent < SafeThreshold then
      Some(InsufficientCharge)
    else if prefs.safeIncludesPluggedIn then
      if charge.pilotCurrent == -1 then Some(CantTellIfPluggedIn)
      else if charge.pilotCurrent == 0 then Some(NotPluggedIn)
      else None
    else None
  }

  /** The gate, logging the reason of a refusal as a reported entry. */
  function SafeToRun(ctx: Context, s: State, cmd: Command): (bool, State) {
    match Denial(ctx.prefs, cmd, s.charge)
    case None => (true, s)
    case Some(reason) => (false, LogActivity(s, ctx.commandName(cmd) + ": " + reason, true))
  }

  /* ---------------------------------------------------------------------
   * Dispatching one command
   * ------------------------------------------------------------------- */

  const AlreadySet := "already_set"
  const UnableToSetChargeTarget := "Unable to set charge target: "

  /** Sets the charge target; a failure other than "already_set" adds a
      reported entry. The vehicle's result is returned unchanged. */
  function SetChargeTarget(ctx: Context, s: State, value: real): (Result, State) {
    var (r, t) := Invoke(ctx, s, SetChargePercent(JavaIntCast(value)));
    if !(r.success || r.explanation == AlreadySet) then
      (r, LogActivity(t, UnableToSetChargeTarget + r.explanation, true))
    else (r, t)
  }

  const NotPluggedInNote := "Your car is not plugged in. Range = "
  const UnpluggedSent := "Vehicle is unplugged. Notification sent"
  const UnpluggedCantTell := "Can't tell if car is plugged in. No notification sent"
  const UnpluggedPluggedIn := "Vehicle is plugged-in. No notification sent"

  /** Notifies the owner when the last fetched charge state says the car is
      not plugged in; always succeeds. */
  function UnpluggedTrigger(ctx: Context, s: State): (Result, State) {
    var pilotCurrent := s.charge.pilotCurrent;
    if pilotCurrent == 0 then
      var note := SendNote(ctx.prefs.notificationAddress,
                           NotPluggedInNote + IntToDecimal(JavaIntCast(s.charge.range)));
      (Result(true, UnpluggedSent), s.(trace := s.trace + [note]))
    else if pilotCurrent == -1 then (Result(true, UnpluggedCantTell), s)
    else (Result(true, UnpluggedPluggedIn), s)
  }

  const NoSubject := "No subject was specified"
  const NoBody := "No body was specified"

  /** Sends the target's rendered message; without a target, sends a default
      message to the configured address and succeeds whatever happens. */
  function SendMessage(ctx: Context, s: State, target: Option<MessageTarget>): (Result, State) {
    match target
    case None =>
      var (_, t) := Send(ctx, s, Call.SendMessage(ctx.prefs.notificationAddress, NoSubject, NoBody));
      (Succeeded, t)
    case Some(m) =>
      var (sent, t) := Send(ctx, s, Call.SendMessage(m.email, ctx.render(m.subject), ctx.render(m.message)));
      (if sent then Succeeded else Failed, t)
  }

  /** The calls one attempt makes for `cmd`, and the result it reports. */
  function Perform(ctx: Context, s: State, cmd: Command, value: real, target: Option<MessageTarget>)
    : (Result, State)
  {
    match cmd
    case ChargeSet | ChargeOn =>
      var (r, t) := if value > 0.0 then SetChargeTarget(ctx, s, value) else (Succeeded, s);
      if cmd == ChargeOn then Invoke(ctx, t, StartCharging) else (r, t)
    case ChargeOff => Invoke(ctx, s, StopCharging)
    case HvacOn =>
      if value > 0.0 then
        var setTemp := if IsFahrenheit(ctx.temperatureUnits) then SetTempF(value, value)
                       else SetTempC(value, value);
        var (r, t) := Invoke(ctx, s, setTemp);
        if !r.success then (r, t) else Invoke(ctx, t, StartAC)
      else Invoke(ctx, s, StartAC)
    case HvacOff => Invoke(ctx, s, StopAC)
    case Awake => (Succeeded, s.(inactivityMode := Inactivity.Awake))
    case Sleep => (Succeeded, s.(inactivityMode := Inactivity.Sleep))
    case Unplugged => UnpluggedTrigger(ctx, s)
    case Message => SendMessage(ctx, s, target)
  }

  /** UNPLUGGED and MESSAGE write their entries without reporting them. */
  predicate Reports(cmd: Command) {
    cmd != Unplugged && cmd != Message
  }

  /** The command's name, followed by its value when the value is positive. */
  function EntryName(ctx: Context, cmd: Command, value: real): string {
    var name := ctx.commandName(cmd);
    if value > 0.0 then name + " (" + FormatTenths(value) + ")" else name
  }

  function EntryText(name: string, r: Result): string {
    name + ": " + (if r.success then "succeeded" else "failed")
      + (if !r.success then ", " + r.explanation else "")
  }

  /** One attempt: perform the command, then log its outcome. */
  function TryCommand(ctx: Context, s: State, cmd: Command, value: real, target: Option<MessageTarget>)
    : (bool, State)
  {
    var (r, t) := Perform(ctx, s, cmd, value, target);
    (r.success, LogActivity(t, EntryText(EntryName(ctx, cmd, value), r), Reports(cmd)))
  }

  /* ---------------------------------------------------------------------
   * Running a scheduled command
   * ------------------------------------------------------------------- */

  /** How a run ended; `runCommand` itself returns nothing. */
  datatype Ending =
    | DeviceUnreachable
    | SafetyDenied(reason: string)
    | Dispatched(attempts: nat, succeeded: bool)

  const WakeFailure := "Can't wake vehicle - aborting"

  /** Wake (unless the command is SLEEP), gate, attempt, and attempt once
      more if the first attempt failed. */
  function RunCommand(ctx: Context, s: State, cmd: Command, value: real, target: Option<MessageTarget>)
    : (Ending, State)
  {
    var (awake, s1) := if cmd != Sleep then WakeAndGetChargeState(ctx, s) else (true, s);
    if !awake then (DeviceUnreachable, LogActivity(s1, WakeFailure, true))
    else
      var (safe, s2) := SafeToRun(ctx, s1, cmd);
      if !safe then (SafetyDenied(Denial(ctx.prefs, cmd, s1.charge).value), s2)
      else
        var (ok, s3) := TryCommand(ctx, s2, cmd, value, target);
        if ok then (Dispatched(1, true), s3)
        else
          var (ok2, s4) := TryCommand(ctx, s3, cmd, value, target);
          (Dispatched(2, ok2), s4)
  }
}
