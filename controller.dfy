/**
 * SchedulerController as an object: its fields are updated in place, step
 * by step, as the source does, and every method is proved to leave the
 * object in the state the corresponding function of module Engine
 * computes from the state before the call.
 */
module Controller {
  import opened Tesla
  import opened Schedule
  import opened Text
  import Inactivity
  import Engine

  class SchedulerController {
    /** Preferences, naming, rendering and the collaborators' answers. */
    const ctx: Context

    /** The charge state the last query returned. */
    var charge: ChargeState
    /** The activity log, newest entry first, with each entry's report flag. */
    var log: seq<Engine.Entry>
    /** appContext.schedulerActivity: the last reported entry. */
    var activity: string
    /** appContext.inactivity's state and mode. */
    var inactivityState: Inactivity.InactivityType
    var inactivityMode: Inactivity.InactivityType
    /** Every call made to the vehicle or the notification sender. */
    var trace: seq<Call>

    function State(): Engine.State
      reads this
    {
      Engine.State(charge, log, activity, inactivityState, inactivityMode, trace)
    }

    constructor (context: Context, initial: Engine.State)
      ensures ctx == context && State() == initial
    {
      ctx := context;
      charge := initial.charge;
      log := initial.log;
      activity := initial.activity;
      inactivityState := initial.inactivityState;
      inactivityMode := initial.inactivityMode;
      trace := initial.trace;
    }

    /* -------------------------------------------------------------------
     * The collaborators: each call is recorded and answered by the world
     * ----------------------------------------------------------------- */

    method QueryCharge() returns (c: ChargeState)
      modifies this`trace
      ensures c == ctx.world.QueryAnswer(old(trace))
      ensures State() == old(State()).(trace := old(trace) + [Call.QueryCharge])
    {
      c := ctx.world.QueryAnswer(trace);
      trace := trace + [Call.QueryCharge];
    }

    method WakeUp()
      modifies this`trace
      ensures State() == Engine.Wake(old(State()))
    {
      trace := trace + [Call.WakeUp];
    }

    method Invoke(c: Call) returns (r: Result)
      modifies this`trace
      ensures (r, State()) == Engine.Invoke(ctx, old(State()), c)
    {
      r := ctx.world.CommandAnswer(trace, c);
      trace := trace + [c];
    }

    method Send(c: Call) returns (sent: bool)
      modifies this`trace
      ensures (sent, State()) == Engine.Send(ctx, old(State()), c)
    {
      sent := ctx.world.SendAnswer(trace, c);
      trace := trace + [c];
    }

    /* -------------------------------------------------------------------
     * The engine
     * ----------------------------------------------------------------- */

    method LogActivity(entry: string, report: bool)
      modifies this`log, this`activity
      ensures State() == Engine.LogActivity(old(State()), entry, report)
    {
      log := [(entry, report)] + log;
      if report {
        activity := entry;
      }
    }

    method WakeAndGetChargeState() returns (ok: bool)
      modifies this
      ensures (ok, State()) == Engine.WakeAndGetChargeState(ctx, old(State()))
    {
      inactivityState := Inactivity.Awake;
      charge := QueryCharge();
      if charge.valid {
        return true;
      }
      ok := WakeRetries();
    }

    /** The retry loop of wakeAndGetChargeState, entered after an invalid
        first answer. */
    method WakeRetries() returns (ok: bool)
      requires !charge.valid
      modifies this`charge, this`trace
      ensures (ok, State()) == Engine.WakeLoop(ctx, old(State()), 0)
    {
      ghost var goal := Engine.WakeLoop(ctx, State(), 0);
      for i := 0 to Engine.WakeAttempts
        invariant !charge.valid
        invariant Engine.WakeLoop(ctx, State(), i) == goal
      {
        WakeUp();
        charge := QueryCharge();
        if charge.valid {
          return true;
        }
      }
      return false;
    }

    method SafeToRun(cmd: Command) returns (safe: bool)
      modifies this`log, this`activity
      ensures (safe, State()) == Engine.SafeToRun(ctx, old(State()), cmd)
    {
      if !Engine.RequiresSafeMode(cmd) {
        return true;
      }
      var name := ctx.commandName(cmd);
      if ctx.prefs.safeIncludesMinCharge {
        if charge.batteryPercent < Engine.SafeThreshold {
          LogActivity(name + ": " + Engine.InsufficientCharge, true);
          return false;
        }
      }
      if ctx.prefs.safeIncludesPluggedIn {
        if charge.pilotCurrent == -1 {
          LogActivity(name + ": " + Engine.CantTellIfPluggedIn, true);
          return false;
        } else if charge.pilotCurrent == 0 {
          LogActivity(name + ": " + Engine.NotPluggedIn, true);
          return false;
        } else {
          return true;
        }
      }
      return true;
    }

    method UnpluggedTrigger() returns (r: Result)
      modifies this`trace
      ensures (r, State()) == Engine.UnpluggedTrigger(ctx, old(State()))
    {
      var pilotCurrent := charge.pilotCurrent;
      if pilotCurrent == 0 {
        trace := trace + [SendNote(ctx.prefs.notificationAddress,
                                   Engine.NotPluggedInNote + IntToDecimal(JavaIntCast(charge.range)))];
        return Result(true, Engine.UnpluggedSent);
      } else if pilotCurrent == -1 {
        return Result(true, Engine.UnpluggedCantTell);
      }
      return Result(true, Engine.UnpluggedPluggedIn);
    }

    method SendMessage(target: Option<MessageTarget>) returns (r: Result)
      modifies this`trace
      ensures (r, State()) == Engine.SendMessage(ctx, old(State()), target)
    {
      if target.None? {
        var _ := Send(Call.SendMessage(ctx.prefs.notificationAddress, Engine.NoSubject, Engine.NoBody));
        return Succeeded;
      }
      var m := target.value;
      var sent := Send(Call.SendMessage(m.email, ctx.render(m.subject), ctx.render(m.message)));
      return if sent then Succeeded else Failed;
    }

    /** The switch of tryCommand: the calls one attempt makes, and its result. */
    method Perform(cmd: Command, value: real, target: Option<MessageTarget>) returns (r: Result)
      modifies this
      ensures (r, State()) == Engine.Perform(ctx, old(State()), cmd, value, target)
    {
      r := Succeeded;
      if cmd == ChargeSet || cmd == ChargeOn {
        if value > 0.0 {
          r := Invoke(SetChargePercent(JavaIntCast(value)));
          if !(r.success || r.explanation == Engine.AlreadySet) {
            LogActivity(Engine.UnableToSetChargeTarget + r.explanation, true);
          }
        }
        if cmd == ChargeOn {
          r := Invoke(StartCharging);
        }
      } else if cmd == ChargeOff {
        r := Invoke(StopCharging);
      } else if cmd == HvacOn {
        if value > 0.0 {
          if IsFahrenheit(ctx.temperatureUnits) {
            r := Invoke(SetTempF(value, value));
          } else {
            r := Invoke(SetTempC(value, value));
          }
          if !r.success {
            return;
          }
        }
        r := Invoke(StartAC);
      } else if cmd == HvacOff {
        r := Invoke(StopAC);
      } else if cmd == Awake {
        inactivityMode := Inactivity.Awake;
      } else if cmd == Sleep {
        inactivityMode := Inactivity.Sleep;
      } else if cmd == Unplugged {
        r := UnpluggedTrigger();
      } else {
        r := SendMessage(target);
      }
    }

    method TryCommand(cmd: Command, value: real, target: Option<MessageTarget>) returns (ok: bool)
      modifies this
      ensures (ok, State()) == Engine.TryCommand(ctx, old(State()), cmd, value, target)
    {
      var name := ctx.commandName(cmd);
      var r := Perform(cmd, value, target);
      var report := cmd != Unplugged && cmd != Message;
      if value > 0.0 {
        name := name + " (" + FormatTenths(value) + ")";
      }
      var entry := name + ": " + (if r.success then "succeeded" else "failed");
      if !r.success {
        entry := entry + ", " + r.explanation;
      }
      assert report == Engine.Reports(cmd);
      assert name == Engine.EntryName(ctx, cmd, value);
      assert entry == Engine.EntryText(name, r);
      LogActivity(entry, report);
      return r.success;
    }

    method RunCommand(cmd: Command, value: real, target: Option<MessageTarget>)
      modifies this
      ensures State() == Engine.RunCommand(ctx, old(State()), cmd, value, target).1
    {
      if cmd != Sleep {
        var awake := WakeAndGetChargeState();
        if !awake {
          LogActivity(Engine.WakeFailure, true);
          return;
        }
      }
      var safe := SafeToRun(cmd);
      if !safe {
        return;
      }
      var ok := TryCommand(cmd, value, target);
      if !ok {
        ok := TryCommand(cmd, value, target);  // retried once against transient errors
      }
    }
  }
}
