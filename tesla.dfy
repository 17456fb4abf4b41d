/**
 * The collaborators the scheduler talks to: the vehicle (its charge-state
 * query and its commands) and the notification sender. Their behaviour is
 * not modelled; a `World` is a deterministic stub that answers each call
 * from the history of calls made before it, so any scripted behaviour of
 * the real services can be expressed as one `World`.
 */
module Tesla {

  /** A point-in-time read of the vehicle's charge state. `pilotCurrent` is
      the value ChargeController.getPilotCurent derives for this snapshot:
      -1 when it cannot tell, 0 when not plugged in, otherwise the current. */
  datatype ChargeState = ChargeState(
    valid: bool,
    batteryPercent: int,
    range: real,
    pilotCurrent: int)

  /** The vehicle API's result of one command. */
  datatype Result = Result(success: bool, explanation: string)

  const Succeeded := Result(true, "")
  const Failed := Result(false, "")

  /** Every call the core makes to a collaborator, in the order made. */
  datatype Call =
    | QueryCharge
    | WakeUp
    | SetChargePercent(percent: int)
    | StartCharging
    | StopCharging
    | SetTempF(lowF: real, highF: real)
    | SetTempC(lowC: real, highC: real)
    | StartAC
    | StopAC
    | SendMessage(address: string, subject: string, body: string)
    | SendNote(address: string, text: string)

  /** Calls that reach the vehicle (as opposed to the notification sender). */
  predicate IsVehicleCall(c: Call) {
    !c.SendMessage? && !c.SendNote?
  }

  /** Calls that change the vehicle's state; waking and querying do not. */
  predicate IsVehicleCommand(c: Call) {
    IsVehicleCall(c) && !c.QueryCharge? && !c.WakeUp?
  }

  /** The stub: each answer depends on the calls made before it. */
  datatype World = World(
    chargeAnswer: seq<Call> -> ChargeState,
    commandAnswer: (seq<Call>, Call) -> Result,
    sendAnswer: (seq<Call>, Call) -> bool)
  {
    /** The answer to `queryCharge` after the calls in `history`. */
    function QueryAnswer(history: seq<Call>): ChargeState {
      chargeAnswer(history)
    }

    /** The vehicle's result of command `c` after the calls in `history`. */
    function CommandAnswer(history: seq<Call>, c: Call): Result {
      commandAnswer(history, c)
    }

    /** Whether the sender delivers message `c` after the calls in `history`. */
    function SendAnswer(history: seq<Call>, c: Call): bool {
      sendAnswer(history, c)
    }
  }

  const IntMin := -0x8000_0000
  const IntMax := 0x7fff_ffff

  /** Java's `(int)` cast of a double: truncation toward zero, saturating
      at the bounds of a 32-bit int. */
  function JavaIntCast(x: real): (i: int)
    ensures IntMin <= i <= IntMax
    ensures IntMin as real <= x <= IntMax as real ==>
              i as real <= x < i as real + 1.0 || i as real - 1.0 < x <= i as real
    ensures x >= 0.0 ==> 0 <= i && i as real <= x
    ensures x <= 0.0 ==> i <= 0 && x <= i as real
    ensures x >= IntMax as real ==> i == IntMax
    ensures x <= IntMin as real ==> i == IntMin
  {
    var t := if x >= 0.0 then x.Floor else -((-x).Floor);
    if t < IntMin then IntMin else if t > IntMax then IntMax else t
  }
}

/** The process-wide inactivity hint (Inactivity.Type in the source). */
module Inactivity {
  datatype InactivityType = Awake | Sleep
}
