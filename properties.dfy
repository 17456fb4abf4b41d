/**
 * What the engine promises, proved about the functions of module Engine:
 * the bounds of the wake loop, the order of the safety checks, the calls
 * each command makes, the single retry, and the shape of the log.
 */
module EngineProperties {
  import opened Tesla
  import opened Schedule
  import opened Text
  import opened Engine
  import Inactivity

  /** The calls `k` rounds of the wake loop make. */
  function WakeTrace(k: nat): seq<Call> {
    if k == 0 then [] else [Call.WakeUp, Call.QueryCharge] + WakeTrace(k - 1)
  }

  /** None of `calls` changes the vehicle's state. */
  predicate NoVehicleCommand(calls: seq<Call>) {
    forall i :: 0 <= i < |calls| ==> !IsVehicleCommand(calls[i])
  }

  /** The calls made between two states, the later extending the earlier. */
  function Added(s: State, t: State): seq<Call>
    requires s.trace <= t.trace
  {
    t.trace[|s.trace|..]
  }

  /* ---------------------------------------------------------------------
   * Waking
   * ------------------------------------------------------------------- */

  /** `c` is a wake-up or a charge-state query. */
  predicate IsWakeOrQuery(c: Call) {
    c == Call.WakeUp || c == Call.QueryCharge
  }

  /** Every call in `calls` is a wake-up or a charge-state query. */
  predicate OnlyWakeAndQuery(calls: seq<Call>) {
    forall i :: 0 <= i < |calls| ==> IsWakeOrQuery(calls[i])
  }

  lemma OnlyWakeAndQueryConcat(a: seq<Call>, b: seq<Call>)
    requires OnlyWakeAndQuery(a) && OnlyWakeAndQuery(b)
    ensures OnlyWakeAndQuery(a + b)
  {
    forall i | 0 <= i < |a + b|
      ensures IsWakeOrQuery((a + b)[i])
    {
      if i >= |a| {
        assert (a + b)[i] == b[i - |a|];
      }
    }
  }

  lemma OnlyWakeAndQueryChain(a: seq<Call>, b: seq<Call>, c: seq<Call>)
    requires a <= b && b <= c
    requires OnlyWakeAndQuery(b[|a|..]) && OnlyWakeAndQuery(c[|b|..])
    ensures a <= c && OnlyWakeAndQuery(c[|a|..])
  {
    assert c[|a|..] == b[|a|..] + c[|b|..];
    OnlyWakeAndQueryConcat(b[|a|..], c[|b|..]);
  }

  /** Wake-ups and queries are not vehicle commands. */
  lemma OnlyWakeAndQueryNoCommand(calls: seq<Call>)
    requires OnlyWakeAndQuery(calls)
    ensures NoVehicleCommand(calls)
  {
  }

  /** The history the query of round `j` sees, when the loop was entered
      with history `h`: `j` full rounds, then that round's wake-up. */
  function RoundHistory(h: seq<Call>, j: nat): seq<Call> {
    h + WakeTrace(j) + [Call.WakeUp]
  }

  /** One more round at the front of the history is one more round. */
  lemma RoundHistoryShift(h: seq<Call>, j: nat)
    ensures RoundHistory(h + [Call.WakeUp, Call.QueryCharge], j) == RoundHistory(h, j + 1)
  {
    assert WakeTrace(j + 1) == [Call.WakeUp, Call.QueryCharge] + WakeTrace(j);
  }

  /** Rounds of the wake loop make `k` wake-ups and `k` queries. */
  lemma {:induction false} WakeTraceCounts(k: nat)
    ensures multiset(WakeTrace(k))[Call.WakeUp] == k
    ensures multiset(WakeTrace(k))[Call.QueryCharge] == k
  {
    if k > 0 {
      WakeTraceCounts(k - 1);
      assert WakeTrace(k) == [Call.WakeUp, Call.QueryCharge] + WakeTrace(k - 1);
    }
  }

  /** Rounds of the wake loop make no call but wake-ups and queries. */
  lemma {:induction false} WakeTraceOnly(k: nat)
    ensures OnlyWakeAndQuery(WakeTrace(k))
  {
    if k > 0 {
      WakeTraceOnly(k - 1);
      OnlyWakeAndQueryConcat([Call.WakeUp, Call.QueryCharge], WakeTrace(k - 1));
    }
  }

  /** The first query and `k` rounds: `k` wake-ups, `k + 1` queries. */
  lemma FirstQueryCounts(k: nat)
    ensures multiset([Call.QueryCharge] + WakeTrace(k))[Call.WakeUp] == k
    ensures multiset([Call.QueryCharge] + WakeTrace(k))[Call.QueryCharge] == k + 1
    ensures OnlyWakeAndQuery([Call.QueryCharge] + WakeTrace(k))
  {
    WakeTraceCounts(k);
    WakeTraceOnly(k);
    OnlyWakeAndQueryConcat([Call.QueryCharge], WakeTrace(k));
  }

  /** The same counts for the calls added between two states. */
  lemma WakeCallCounts(s: State, t: State, k: nat)
    requires t.trace == s.trace + [Call.QueryCharge] + WakeTrace(k)
    ensures s.trace <= t.trace
    ensures multiset(Added(s, t))[Call.WakeUp] == k
    ensures multiset(Added(s, t))[Call.QueryCharge] == k + 1
    ensures OnlyWakeAndQuery(Added(s, t)) && NoVehicleCommand(Added(s, t))
    ensures k == 0 ==> Added(s, t) == [Call.QueryCharge]
  {
    var added := [Call.QueryCharge] + WakeTrace(k);
    assert t.trace == s.trace + added;
    assert Added(s, t) == added;
    FirstQueryCounts(k);
  }

  /** The loop from round `i`, entered with an invalid charge state, runs
      `k` more rounds: every round before the last got an invalid answer, so
      it stops at the first valid answer or after the last round; and
      `charge` holds the answer to the last query. */
  lemma {:induction false} WakeLoopShape(ctx: Context, s: State, i: nat) returns (k: nat)
    requires i <= WakeAttempts && !s.charge.valid
    ensures var (ok, t) := WakeLoop(ctx, s, i);
      && k <= WakeAttempts - i
      && t.trace == s.trace + WakeTrace(k)
      && t == s.(charge := t.charge, trace := t.trace)
      && (ok <==> t.charge.valid)
      && (!ok ==> k == WakeAttempts - i)
      && (k == 0 ==> t.charge == s.charge)
      && (k > 0 ==> t.charge == ctx.world.QueryAnswer(RoundHistory(s.trace, k - 1)))
      && (forall j :: 0 <= j < k - 1 ==> !ctx.world.QueryAnswer(RoundHistory(s.trace, j)).valid)
    decreases WakeAttempts - i
  {
    if i == WakeAttempts {
      k := 0;
    } else {
      var u := Query(ctx, Wake(s));
      assert u.trace == s.trace + [Call.WakeUp, Call.QueryCharge];
      assert s.trace + [Call.WakeUp] == RoundHistory(s.trace, 0);
      if u.charge.valid {
        k := 1;
        assert WakeTrace(1) == [Call.WakeUp, Call.QueryCharge] + WakeTrace(0);
      } else {
        var k' := WakeLoopShape(ctx, u, i + 1);
        k := k' + 1;
        assert s.trace + WakeTrace(k) == u.trace + WakeTrace(k');
        forall j | 0 < j <= k'
          ensures RoundHistory(s.trace, j) == RoundHistory(u.trace, j - 1)
        {
          RoundHistoryShift(s.trace, j - 1);
        }
      }
    }
  }

  /** wakeAndGetChargeState: one query, then `k` <= 20 rounds of wake-up and
      query; no wake-up at all when the first answer is valid, and every
      answer before the last invalid otherwise; the result is true iff the
      last answer, which `charge` holds, is valid; and only the charge, the
      trace and the inactivity state change. */
  lemma WakeShape(ctx: Context, s: State) returns (k: nat)
    ensures var (ok, t) := WakeAndGetChargeState(ctx, s);
      && k <= WakeAttempts
      && t.trace == s.trace + [Call.QueryCharge] + WakeTrace(k)
      && t == s.(inactivityState := Inactivity.Awake, charge := t.charge, trace := t.trace)
      && (ok <==> t.charge.valid)
      && (!ok ==> k == WakeAttempts)
      && (ctx.world.QueryAnswer(s.trace).valid <==> k == 0)
      && (k == 0 ==> t.charge == ctx.world.QueryAnswer(s.trace))
      && (k > 0 ==> t.charge == ctx.world.QueryAnswer(RoundHistory(s.trace + [Call.QueryCharge], k - 1)))
      && (forall j :: 0 <= j < k - 1 ==>
            !ctx.world.QueryAnswer(RoundHistory(s.trace + [Call.QueryCharge], j)).valid)
  {
    var u := Query(ctx, s.(inactivityState := Inactivity.Awake));
    if u.charge.valid {
      k := 0;
    } else {
      assert WakeAndGetChargeState(ctx, s) == WakeLoop(ctx, u, 0);
      k := WakeLoopShape(ctx, u, 0);
    }
  }

  /** The wake fails exactly when all 21 answers were invalid: the first
      query's and that of each of the 20 rounds. */
  lemma WakeFailsIffAllInvalid(ctx: Context, s: State)
    ensures !WakeAndGetChargeState(ctx, s).0 <==>
      && !ctx.world.QueryAnswer(s.trace).valid
      && forall j :: 0 <= j < WakeAttempts ==>
           !ctx.world.QueryAnswer(RoundHistory(s.trace + [Call.QueryCharge], j)).valid
  {
    var k := WakeShape(ctx, s);
  }

  /** At most 20 wake-ups and 21 queries, nothing but those, and a single
      query when the first answer is valid. */
  lemma WakeBounds(ctx: Context, s: State)
    ensures var (ok, t) := WakeAndGetChargeState(ctx, s);
      && s.trace <= t.trace
      && multiset(Added(s, t))[Call.WakeUp] <= WakeAttempts
      && multiset(Added(s, t))[Call.QueryCharge] <= WakeAttempts + 1
      && OnlyWakeAndQuery(Added(s, t))
      && NoVehicleCommand(Added(s, t))
      && (ctx.world.QueryAnswer(s.trace).valid ==> ok && Added(s, t) == [Call.QueryCharge])
      && (!ok ==> multiset(Added(s, t))[Call.WakeUp] == WakeAttempts
                  && multiset(Added(s, t))[Call.QueryCharge] == WakeAttempts + 1)
  {
    var k := WakeShape(ctx, s);
    WakeCallCounts(s, WakeAndGetChargeState(ctx, s).1, k);
  }

  /* ---------------------------------------------------------------------
   * Safety gate
   * ------------------------------------------------------------------- */

  /** Only HVAC_ON is gated. The minimum-charge check comes first and wins;
      then an unknown pilot current and a zero pilot current deny, in that
      order; anything else is allowed. */
  lemma GateDecision(prefs: Prefs, cmd: Command, charge: ChargeState)
    ensures cmd != HvacOn ==> Denial(prefs, cmd, charge) == None
    ensures cmd == HvacOn && prefs.safeIncludesMinCharge && charge.batteryPercent < 25 ==>
              Denial(prefs, cmd, charge) == Some("Insufficient charge - aborted")
    ensures cmd == HvacOn && !(prefs.safeIncludesMinCharge && charge.batteryPercent < 25)
            && prefs.safeIncludesPluggedIn ==>
              Denial(prefs, cmd, charge) ==
                if charge.pilotCurrent == -1 then Some("Can't tell if car is plugged in - aborted")
                else if charge.pilotCurrent == 0 then Some("Car is not plugged in - aborted")
                else None
    ensures Denial(prefs, cmd, charge) == None <==>
              cmd != HvacOn
              || ((!prefs.safeIncludesMinCharge || charge.batteryPercent >= 25)
                  && (!prefs.safeIncludesPluggedIn || (charge.pilotCurrent != -1 && charge.pilotCurrent != 0)))
  {
  }

  /** An allowed command leaves the state alone; a denied one adds exactly
      one reported entry naming the command and the reason. */
  lemma GateLogging(ctx: Context, s: State, cmd: Command)
    ensures var (safe, t) := SafeToRun(ctx, s, cmd);
      && (safe <==> Denial(ctx.prefs, cmd, s.charge).None?)
      && (safe ==> t == s)
      && (!safe ==> t == LogActivity(s, ctx.commandName(cmd) + ": " + Denial(ctx.prefs, cmd, s.charge).value, true)
                    && |t.log| == |s.log| + 1 && t.trace == s.trace)
  {
  }

  /* ---------------------------------------------------------------------
   * One attempt
   * ------------------------------------------------------------------- */

  /** logActivity prepends the entry with its flag, sets the reported
      activity iff the flag is set, and changes nothing else. */
  lemma LogActivityEffect(s: State, entry: string, report: bool)
    ensures var t := LogActivity(s, entry, report);
      && t.log[0] == (entry, report) && t.log[1..] == s.log
      && (report ==> t.activity == entry)
      && (!report ==> t.activity == s.activity)
      && t.(log := s.log, activity := s.activity) == s
  {
  }

  /** HVAC_ON sets the temperature first when the value is positive, in
      the unit the UI shows; when that fails it does not start the climate
      control and reports the failure; otherwise it only starts it. */
  lemma HvacOnCalls(ctx: Context, s: State, value: real, target: Option<MessageTarget>)
    ensures var (r, t) := Perform(ctx, s, HvacOn, value, target);
      var setTemp := if IsFahrenheit(ctx.temperatureUnits) then SetTempF(value, value) else SetTempC(value, value);
      var first := ctx.world.CommandAnswer(s.trace, setTemp);
      && t.(trace := s.trace) == s
      && (value > 0.0 && !first.success ==> t.trace == s.trace + [setTemp] && r == first)
      && (value > 0.0 && first.success ==>
            t.trace == s.trace + [setTemp, StartAC]
            && r == ctx.world.CommandAnswer(s.trace + [setTemp], StartAC))
      && (value <= 0.0 ==> t.trace == s.trace + [StartAC] && r == ctx.world.CommandAnswer(s.trace, StartAC))
  {
  }

  /** CHARGE_SET and CHARGE_ON set the target only when the value is
      positive; CHARGE_ON then always starts charging and reports that
      call's result. A failed target is logged as a reported entry unless
      its explanation is "already_set". */
  lemma ChargeCalls(ctx: Context, s: State, cmd: Command, value: real, target: Option<MessageTarget>)
    requires cmd == ChargeSet || cmd == ChargeOn
    ensures var (r, t) := Perform(ctx, s, cmd, value, target);
      var setTarget := SetChargePercent(JavaIntCast(value));
      var first := ctx.world.CommandAnswer(s.trace, setTarget);
      var setCalls := if value > 0.0 then [setTarget] else [];
      var noted := value > 0.0 && !first.success && first.explanation != "already_set";
      && t.trace == s.trace + setCalls + (if cmd == ChargeOn then [StartCharging] else [])
      && t.log == (if noted then [("Unable to set charge target: " + first.explanation, true)] else []) + s.log
      && t.activity == (if noted then "Unable to set charge target: " + first.explanation else s.activity)
      && t.(trace := s.trace, log := s.log, activity := s.activity) == s
      && (cmd == ChargeOn ==> r == ctx.world.CommandAnswer(s.trace + setCalls, StartCharging))
      && (cmd == ChargeSet ==> r == if value > 0.0 then first else Succeeded)
  {
    if value <= 0.0 {
      assert s.trace + [] == s.trace;
    }
  }

  /** AWAKE and SLEEP make no call and only set the inactivity mode. */
  lemma AwakeSleepCalls(ctx: Context, s: State, cmd: Command, value: real, target: Option<MessageTarget>)
    requires cmd == Awake || cmd == Sleep
    ensures var (r, t) := Perform(ctx, s, cmd, value, target);
      && r.success
      && t == s.(inactivityMode := if cmd == Awake then Inactivity.Awake else Inactivity.Sleep)
  {
  }

  /** UNPLUGGED always succeeds, and sends one notification, carrying the
      range, exactly when the pilot current is 0. */
  lemma UnpluggedCalls(ctx: Context, s: State, value: real, target: Option<MessageTarget>)
    ensures var (r, t) := Perform(ctx, s, Unplugged, value, target);
      && r.success
      && t.(trace := s.trace) == s
      && (s.charge.pilotCurrent == 0 ==>
            t.trace == s.trace + [SendNote(ctx.prefs.notificationAddress,
                                           "Your car is not plugged in. Range = " + IntToDecimal(JavaIntCast(s.charge.range)))])
      && (s.charge.pilotCurrent != 0 ==> t.trace == s.trace)
  {
  }

  /** MESSAGE without a target sends "No subject was specified" / "No body
      was specified" to the configured address and always succeeds; with a
      target it sends the rendered subject and body to the target's address
      and succeeds iff that message was delivered. Nothing else changes. */
  lemma MessageCalls(ctx: Context, s: State, value: real, target: Option<MessageTarget>)
    ensures var (r, t) := Perform(ctx, s, Message, value, target);
      && t.(trace := s.trace) == s
      && (target.None? ==>
            && t.trace == s.trace + [Call.SendMessage(ctx.prefs.notificationAddress,
                                                      "No subject was specified", "No body was specified")]
            && r.success)
      && (target.Some? ==>
            var m := Call.SendMessage(target.value.email, ctx.render(target.value.subject),
                                      ctx.render(target.value.message));
            && t.trace == s.trace + [m]
            && r.success == ctx.world.SendAnswer(s.trace, m))
  {
  }

  /** tryCommand ends with one entry, "name: succeeded" or "name: failed,
      explanation", reported unless the command is UNPLUGGED or MESSAGE, and
      returns the success of the result it logged. */
  lemma TryCommandEntry(ctx: Context, s: State, cmd: Command, value: real, target: Option<MessageTarget>)
    ensures var (ok, t) := TryCommand(ctx, s, cmd, value, target);
      var (r, u) := Perform(ctx, s, cmd, value, target);
      var name := EntryName(ctx, cmd, value);
      && ok == r.success
      && |t.log| == |u.log| + 1 && t.log[1..] == u.log
      && t.log[0].0 == (if ok then name + ": succeeded" else name + ": failed, " + r.explanation)
      && (t.log[0].1 <==> cmd != Unplugged && cmd != Message)
      && t.activity == (if t.log[0].1 then t.log[0].0 else u.activity)
      && t == u.(log := t.log, activity := t.activity)
  {
    var (r, u) := Perform(ctx, s, cmd, value, target);
    var name := EntryName(ctx, cmd, value);
    EntryTextShape(name, r);
    LogActivityEffect(u, EntryText(name, r), Reports(cmd));
  }

  /** "name: succeeded" or "name: failed, explanation". */
  lemma EntryTextShape(name: string, r: Result)
    ensures EntryText(name, r) == if r.success then name + ": succeeded" else name + ": failed, " + r.explanation
  {
  }

  /** The name of an entry is the command's name, followed by the value
      rounded to tenths in parentheses when the value is positive. */
  lemma EntryNameShape(ctx: Context, cmd: Command, value: real)
    ensures value <= 0.0 ==> EntryName(ctx, cmd, value) == ctx.commandName(cmd)
    ensures value > 0.0 ==>
      var name := EntryName(ctx, cmd, value);
      var n := |ctx.commandName(cmd)|;
      && name[..n] == ctx.commandName(cmd)
      && name[n..n + 2] == " (" && name[|name| - 1] == ')'
      && |name| >= n + 6
      && name[n + 2..|name| - 1] == FormatTenths(value)
  {
  }

  /** A failed attempt that answered "already_set" is still a failure: the
      attempt returns false and logs "failed, already_set", only the extra
      "Unable to set charge target" line is left out. */
  lemma AlreadySetIsStillFailure(ctx: Context, s: State, value: real, target: Option<MessageTarget>)
    requires value > 0.0
    requires ctx.world.CommandAnswer(s.trace, SetChargePercent(JavaIntCast(value))) == Result(false, "already_set")
    ensures var (ok, t) := TryCommand(ctx, s, ChargeSet, value, target);
      && !ok
      && t.log == [(EntryName(ctx, ChargeSet, value) + ": failed, already_set", true)] + s.log
  {
    TryCommandEntry(ctx, s, ChargeSet, value, target);
    ChargeCalls(ctx, s, ChargeSet, value, target);
    var t := TryCommand(ctx, s, ChargeSet, value, target).1;
    var name := EntryName(ctx, ChargeSet, value);
    assert name + ": failed, " + "already_set" == name + ": failed, already_set";
    assert t.log == [t.log[0]] + t.log[1..];
  }

  /** For CHARGE_ON the attempt's result is the start's: an "already_set"
      answer to the target call logs no extra line, and the attempt
      succeeds exactly when charging starts. */
  lemma AlreadySetChargeOn(ctx: Context, s: State, value: real, target: Option<MessageTarget>)
    requires value > 0.0
    requires ctx.world.CommandAnswer(s.trace, SetChargePercent(JavaIntCast(value))).explanation == "already_set"
    ensures var (ok, t) := TryCommand(ctx, s, ChargeOn, value, target);
      var start := ctx.world.CommandAnswer(s.trace + [SetChargePercent(JavaIntCast(value))], StartCharging);
      var name := EntryName(ctx, ChargeOn, value);
      && ok == start.success
      && t.log == [(if ok then name + ": succeeded" else name + ": failed, " + start.explanation, true)] + s.log
  {
    TryCommandEntry(ctx, s, ChargeOn, value, target);
    ChargeCalls(ctx, s, ChargeOn, value, target);
    var t := TryCommand(ctx, s, ChargeOn, value, target).1;
    assert t.log == [t.log[0]] + t.log[1..];
  }

  /* ---------------------------------------------------------------------
   * Running a command
   * ------------------------------------------------------------------- */

  /** SLEEP never wakes the vehicle: no call at all, the inactivity state is
      left alone, the mode becomes Sleep and one success is logged and
      reported. */
  lemma SleepNeverWakes(ctx: Context, s: State, value: real, target: Option<MessageTarget>)
    ensures var (e, t) := RunCommand(ctx, s, Sleep, value, target);
      && e == Dispatched(1, true)
      && t.trace == s.trace
      && t.charge == s.charge && t.inactivityState == s.inactivityState
      && t.inactivityMode == Inactivity.Sleep
      && t.log == [(EntryName(ctx, Sleep, value) + ": succeeded", true)] + s.log
      && t.activity == EntryName(ctx, Sleep, value) + ": succeeded"
  {
    TryCommandEntry(ctx, s, Sleep, value, target);
  }

  /** When the vehicle cannot be woken the run logs exactly "Can't wake
      vehicle - aborting" as reported, after 20 wake-ups and 21 queries and
      no call but those. */
  lemma WakeFailureAborts(ctx: Context, s: State, cmd: Command, value: real, target: Option<MessageTarget>)
    requires cmd != Sleep && !WakeAndGetChargeState(ctx, s).0
    ensures var (e, t) := RunCommand(ctx, s, cmd, value, target);
      && e == DeviceUnreachable
      && s.trace <= t.trace
      && OnlyWakeAndQuery(Added(s, t))
      && NoVehicleCommand(Added(s, t))
      && multiset(Added(s, t))[Call.WakeUp] == WakeAttempts
      && multiset(Added(s, t))[Call.QueryCharge] == WakeAttempts + 1
      && t.log == [("Can't wake vehicle - aborting", true)] + s.log
      && t.activity == "Can't wake vehicle - aborting"
  {
    WakeBounds(ctx, s);
    var _ := WakeShape(ctx, s);
    var w := WakeAndGetChargeState(ctx, s).1;
    assert RunCommand(ctx, s, cmd, value, target) == (DeviceUnreachable, LogActivity(w, WakeFailure, true));
  }

  /** A denial by the gate ends the run after the wake: one entry is logged
      and no command reaches the vehicle. */
  lemma DenialStopsRun(ctx: Context, s: State, cmd: Command, value: real, target: Option<MessageTarget>)
    requires var (awake, w) := WakeAndGetChargeState(ctx, s);
      cmd != Sleep && awake && Denial(ctx.prefs, cmd, w.charge).Some?
    ensures var (e, t) := RunCommand(ctx, s, cmd, value, target);
      var w := WakeAndGetChargeState(ctx, s).1;
      && e == SafetyDenied(Denial(ctx.prefs, cmd, w.charge).value)
      && s.trace <= t.trace
      && NoVehicleCommand(Added(s, t))
      && t.log == [(ctx.commandName(cmd) + ": " + e.reason, true)] + s.log
  {
    WakeBounds(ctx, s);
    var _ := WakeShape(ctx, s);
    var w := WakeAndGetChargeState(ctx, s).1;
    var reason := Denial(ctx.prefs, cmd, w.charge).value;
    assert SafeToRun(ctx, w, cmd) == (false, LogActivity(w, ctx.commandName(cmd) + ": " + reason, true));
    assert RunCommand(ctx, s, cmd, value, target) == (SafetyDenied(reason), SafeToRun(ctx, w, cmd).1);
  }

  /** After the wake and the gate the command is attempted once, and once
      more only if that attempt failed: never a third time. */
  lemma RetryOnce(ctx: Context, s: State, cmd: Command, value: real, target: Option<MessageTarget>)
    requires var (awake, w) := if cmd != Sleep then WakeAndGetChargeState(ctx, s) else (true, s);
      awake && Denial(ctx.prefs, cmd, w.charge).None?
    ensures var (e, t) := RunCommand(ctx, s, cmd, value, target);
      var w := if cmd != Sleep then WakeAndGetChargeState(ctx, s).1 else s;
      var (ok1, t1) := TryCommand(ctx, w, cmd, value, target);
      && e.Dispatched?
      && (ok1 ==> e == Dispatched(1, true) && t == t1)
      && (!ok1 ==> e == Dispatched(2, TryCommand(ctx, t1, cmd, value, target).0)
                   && t == TryCommand(ctx, t1, cmd, value, target).1)
  {
  }

  /** CHARGE_OFF stops charging once, or twice when the first stop failed;
      the newest entry reports the last attempt. */
  lemma ChargeOffRetry(ctx: Context, s: State, value: real, target: Option<MessageTarget>)
    requires WakeAndGetChargeState(ctx, s).0
    ensures var (e, t) := RunCommand(ctx, s, ChargeOff, value, target);
      var w := WakeAndGetChargeState(ctx, s).1;
      var first := ctx.world.CommandAnswer(w.trace, StopCharging);
      var last := if first.success then first else ctx.world.CommandAnswer(w.trace + [StopCharging], StopCharging);
      && t.trace == w.trace + (if first.success then [StopCharging] else [StopCharging, StopCharging])
      && t.log[0] == (EntryText(EntryName(ctx, ChargeOff, value), last), true)
      && e == Dispatched(if first.success then 1 else 2, last.success)
  {
  }

  /** A target that is already set fails the attempt, so the run sets it a
      second time. */
  lemma AlreadySetIsRetried(ctx: Context, s: State, value: real, target: Option<MessageTarget>)
    requires value > 0.0
    requires var (awake, w) := WakeAndGetChargeState(ctx, s);
      awake && ctx.world.CommandAnswer(w.trace, SetChargePercent(JavaIntCast(value))) == Result(false, "already_set")
    ensures var (e, t) := RunCommand(ctx, s, ChargeSet, value, target);
      var w := WakeAndGetChargeState(ctx, s).1;
      && e.Dispatched? && e.attempts == 2
      && t.trace == w.trace + [SetChargePercent(JavaIntCast(value)), SetChargePercent(JavaIntCast(value))]
  {
  }

  /** An UNPLUGGED run that gets past the wake is attempted once, notifies
      iff the pilot current is 0, and reports no activity. */
  lemma UnpluggedRun(ctx: Context, s: State, value: real, target: Option<MessageTarget>)
    requires WakeAndGetChargeState(ctx, s).0
    ensures var (e, t) := RunCommand(ctx, s, Unplugged, value, target);
      var w := WakeAndGetChargeState(ctx, s).1;
      && e == Dispatched(1, true)
      && t.activity == s.activity
      && |t.log| == |s.log| + 1 && !t.log[0].1
      && (w.charge.pilotCurrent == 0 <==> |t.trace| == |w.trace| + 1)
      && (w.charge.pilotCurrent != 0 ==> t.trace == w.trace)
  {
    var _ := WakeShape(ctx, s);
  }

  /** `t` keeps all of `s`'s history: the calls of `s` begin `t`'s trace and
      the entries of `s` end `t`'s log. */
  predicate Extends(s: State, t: State) {
    && s.trace <= t.trace
    && |s.log| <= |t.log| && t.log[|t.log| - |s.log|..] == s.log
  }

  lemma ExtendsTransitive(a: State, b: State, c: State)
    requires Extends(a, b) && Extends(b, c)
    ensures Extends(a, c)
  {
    var d := |c.log| - |b.log|;
    assert c.log[d..][|b.log| - |a.log|..] == c.log[|c.log| - |a.log|..];
  }

  /** logActivity keeps the history and adds one entry. */
  lemma LogExtends(s: State, entry: string, report: bool)
    ensures Extends(s, LogActivity(s, entry, report))
    ensures |LogActivity(s, entry, report).log| == |s.log| + 1
  {
    var t := LogActivity(s, entry, report);
    assert t.log[1..] == s.log;
  }

  /** The calls of one attempt keep the history. */
  lemma PerformExtends(ctx: Context, s: State, cmd: Command, value: real, target: Option<MessageTarget>)
    ensures Extends(s, Perform(ctx, s, cmd, value, target).1)
  {
    var t := Perform(ctx, s, cmd, value, target).1;
    match cmd
    case ChargeSet | ChargeOn =>
      ChargeCalls(ctx, s, cmd, value, target);
      assert t.log[|t.log| - |s.log|..] == s.log;
    case HvacOn =>
      HvacOnCalls(ctx, s, value, target);
      assert t.log[0..] == s.log;
    case Unplugged =>
      UnpluggedCalls(ctx, s, value, target);
      assert t.log[0..] == s.log;
    case Message =>
      MessageCalls(ctx, s, value, target);
      assert t.log[0..] == s.log;
    case Awake | Sleep =>
      AwakeSleepCalls(ctx, s, cmd, value, target);
      assert t.log[0..] == s.log;
    case ChargeOff | HvacOff =>
      assert t.log[0..] == s.log;
  }

  /** One attempt only adds calls and log entries, at least one entry. */
  lemma TryExtends(ctx: Context, s: State, cmd: Command, value: real, target: Option<MessageTarget>)
    ensures var t := TryCommand(ctx, s, cmd, value, target).1;
      Extends(s, t) && |s.log| < |t.log|
  {
    var (r, u) := Perform(ctx, s, cmd, value, target);
    PerformExtends(ctx, s, cmd, value, target);
    LogExtends(u, EntryText(EntryName(ctx, cmd, value), r), Reports(cmd));
    ExtendsTransitive(s, u, TryCommand(ctx, s, cmd, value, target).1);
  }

  /** A run only ever adds calls to the trace and entries to the head of the
      log: what was there before is kept. */
  lemma RunExtends(ctx: Context, s: State, cmd: Command, value: real, target: Option<MessageTarget>)
    ensures Extends(s, RunCommand(ctx, s, cmd, value, target).1)
  {
    var w := s;
    if cmd != Sleep {
      var _ := WakeShape(ctx, s);
      w := WakeAndGetChargeState(ctx, s).1;
      assert Extends(s, w) by { assert s.log[0..] == s.log; }
      if !WakeAndGetChargeState(ctx, s).0 {
        LogExtends(w, WakeFailure, true);
        ExtendsTransitive(s, w, LogActivity(w, WakeFailure, true));
        return;
      }
    } else {
      assert s.log[0..] == s.log;
    }
    GateLogging(ctx, w, cmd);
    if Denial(ctx.prefs, cmd, w.charge).Some? {
      LogExtends(w, ctx.commandName(cmd) + ": " + Denial(ctx.prefs, cmd, w.charge).value, true);
      ExtendsTransitive(s, w, SafeToRun(ctx, w, cmd).1);
    } else {
      RetryOnce(ctx, s, cmd, value, target);
      var (ok, t1) := TryCommand(ctx, w, cmd, value, target);
      TryExtends(ctx, w, cmd, value, target);
      ExtendsTransitive(s, w, t1);
      if !ok {
        TryExtends(ctx, t1, cmd, value, target);
        ExtendsTransitive(s, t1, TryCommand(ctx, t1, cmd, value, target).1);
      }
    }
  }

  /* ---------------------------------------------------------------------
   * Repetition
   * ------------------------------------------------------------------- */

  /** `n` applications of `step`, one after the other. */
  function Iterate(step: State -> State, s: State, n: nat): State
    decreases n
  {
    if n == 0 then s else Iterate(step, step(s), n - 1)
  }

  /** `n` runs of the same command, one after the other. */
  function RunRepeatedly(ctx: Context, s: State, cmd: Command, value: real,
                         target: Option<MessageTarget>, n: nat): State
  {
    Iterate(x => RunCommand(ctx, x, cmd, value, target).1, s, n)
  }

  function Repeat(e: Entry, n: nat): seq<Entry> {
    if n == 0 then [] else Repeat(e, n - 1) + [e]
  }

  /** A step that makes no call, keeps the charge and inactivity state, sets
      the mode to Sleep and logs the reported entry `e`, taken `n` times,
      logs `e` `n` times and still makes no call. */
  lemma {:induction false} IterateLogs(step: State -> State, e: Entry, s: State, n: nat)
    requires forall x: State :: step(x).trace == x.trace && step(x).inactivityMode == Inactivity.Sleep
                         && step(x).charge == x.charge && step(x).inactivityState == x.inactivityState
                         && step(x).log == [e] + x.log && step(x).activity == e.0
    ensures var t := Iterate(step, s, n);
      && t.trace == s.trace
      && t.charge == s.charge
      && t.inactivityState == s.inactivityState
      && (n > 0 ==> t.inactivityMode == Inactivity.Sleep)
      && (n > 0 ==> t.activity == e.0)
      && t.log == Repeat(e, n) + s.log
    decreases n
  {
    if n > 0 {
      IterateLogs(step, e, step(s), n - 1);
      assert Repeat(e, n - 1) + step(s).log == Repeat(e, n) + s.log;
    }
  }

  /** SLEEP any number of times: no call, the charge and inactivity state
      are untouched, the mode is Sleep, and each run logs one reported
      success. */
  lemma SleepIdempotent(ctx: Context, s: State, value: real,
                        target: Option<MessageTarget>, n: nat)
    ensures var t := RunRepeatedly(ctx, s, Sleep, value, target, n);
      && t.trace == s.trace
      && t.charge == s.charge
      && t.inactivityState == s.inactivityState
      && (n > 0 ==> t.inactivityMode == Inactivity.Sleep)
      && (n > 0 ==> t.activity == EntryName(ctx, Sleep, value) + ": succeeded")
      && t.log == Repeat((EntryName(ctx, Sleep, value) + ": succeeded", true), n) + s.log
  {
    var step := x => RunCommand(ctx, x, Sleep, value, target).1;
    forall x: State
      ensures step(x).trace == x.trace && step(x).inactivityMode == Inactivity.Sleep
              && step(x).charge == x.charge && step(x).inactivityState == x.inactivityState
              && step(x).log == [(EntryName(ctx, Sleep, value) + ": succeeded", true)] + x.log
              && step(x).activity == EntryName(ctx, Sleep, value) + ": succeeded"
    {
      SleepNeverWakes(ctx, x, value, target);
    }
    IterateLogs(step, (EntryName(ctx, Sleep, value) + ": succeeded", true), s, n);
  }

  /** A step that only adds wake-ups and queries, taken `n` times, still
      only adds wake-ups and queries. */
  lemma {:induction false} IterateWakes(step: State -> State, s: State, n: nat)
    requires forall x: State :: x.trace <= step(x).trace && OnlyWakeAndQuery(step(x).trace[|x.trace|..])
    ensures var t := Iterate(step, s, n);
      s.trace <= t.trace && OnlyWakeAndQuery(t.trace[|s.trace|..])
    decreases n
  {
    if n > 0 {
      IterateWakes(step, step(s), n - 1);
      OnlyWakeAndQueryChain(s.trace, step(s).trace, Iterate(step, step(s), n - 1).trace);
    }
  }

  /** One AWAKE run calls nothing but the wake-up and the queries. */
  lemma AwakeRunTrace(ctx: Context, s: State, value: real, target: Option<MessageTarget>)
    ensures var u := RunCommand(ctx, s, Awake, value, target).1;
      s.trace <= u.trace && OnlyWakeAndQuery(Added(s, u))
  {
    WakeBounds(ctx, s);
    var (awake, w) := WakeAndGetChargeState(ctx, s);
    var u := RunCommand(ctx, s, Awake, value, target).1;
    if awake {
      assert SafeToRun(ctx, w, Awake) == (true, w);
      assert u.trace == TryCommand(ctx, w, Awake, value, target).1.trace == w.trace;
    } else {
      assert u.trace == w.trace;
    }
  }

  /** AWAKE any number of times only wakes and queries the vehicle, so it
      never sends it a command. */
  lemma AwakeNeverCommands(ctx: Context, s: State, value: real,
                           target: Option<MessageTarget>, n: nat)
    ensures var t := RunRepeatedly(ctx, s, Awake, value, target, n);
      s.trace <= t.trace && OnlyWakeAndQuery(Added(s, t)) && NoVehicleCommand(Added(s, t))
  {
    var step := x => RunCommand(ctx, x, Awake, value, target).1;
    forall x: State
      ensures x.trace <= step(x).trace && OnlyWakeAndQuery(step(x).trace[|x.trace|..])
    {
      AwakeRunTrace(ctx, x, value, target);
    }
    IterateWakes(step, s, n);
    OnlyWakeAndQueryNoCommand(Added(s, RunRepeatedly(ctx, s, Awake, value, target, n)));
  }
}
