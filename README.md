# Scheduled-command engine of VisibleTesla's SchedulerController

VisibleTesla lets the owner schedule commands for the car. Examples are setting the charge target, starting or stopping charging, starting the climate control, changing the app's inactivity mode, notifying the owner when the car is unplugged, and sending a templated message. When a schedule fires, `SchedulerController.runCommand` does the following:

1. Unless the command is SLEEP, it wakes the car. First it asks for the charge state once. If that answer is invalid, it makes up to twenty rounds of wake-up and query.
2. It passes the command through a safety gate. The gate looks at the charge state the wake fetched. Only HVAC_ON is gated: it is refused below 25 % battery, when the plug state is unknown, or when the car is unplugged, depending on the preferences.
3. It tries the command once (`tryCommand`). If the first attempt failed, it tries once more.

Every outcome goes into a newest-first activity log. A "reported" entry also becomes the app's last scheduler activity.

This project models that engine in three layers:

- **Module `Engine`** states each step as a function from the controller's state before the step to its state after it. The state holds the charge state last fetched, the log with each entry's report flag, the last reported activity, the inactivity state and mode, and the trace of every call made to the car or the notification sender.
- **Class `Controller.SchedulerController`** has the same fields and updates them in place, step by step, as the Java does. This includes the twenty-round wake loop with its invariant. Each method is proved to end in the state that the matching `Engine` function computes.
- **Module `EngineProperties`** proves what the engine promises, in terms of the calls made and the entries logged.

The supporting modules are:

- **`Tesla`**: the charge state, the vehicle's `Result`, the calls, and a `World`. A `World` answers every collaborator call from the history of calls before it, so any scripted behaviour of the car and of the mail sender is one `World`. The module also models Java's `(int)` cast of a double.
- **`Schedule`**: the commands, the message target, and the preferences and context the engine reads.
- **`Text`**: the decimal rendering of an `int` and the `%3.1f` format of a positive value, each with its round trip.

For CHARGE_SET, an "already_set" answer to the charge-target call is a failure, on the assumption that the car sends it with `success == false`. `tryCommand` returns `r.success`, so the attempt logs "name: failed, already_set" and `runCommand` retries it. The explanation only suppresses the extra "Unable to set charge target" line. See `EngineProperties.AlreadySetIsStillFailure` and `EngineProperties.AlreadySetIsRetried`. For CHARGE_ON, the attempt's result is that of `startCharing`. An "already_set" target answer therefore neither fails the attempt nor causes a retry when the start succeeds. See `EngineProperties.AlreadySetChargeOn`.

## Model

| member | source | states |
|---|---|---|
| Tesla.JavaIntCast | src/org/noroomattheinn/visibletesla/SchedulerController.java:102 | `(int)` of a double stays within the 32-bit range, truncates toward zero inside that range, keeps the sign, and saturates to the bound at or beyond it |
| Text.NatToDecimal | src/org/noroomattheinn/visibletesla/SchedulerController.java:207 | the rendering of a number is a non-empty string of digits with no leading zero |
| Text.DecimalRoundTrip | src/org/noroomattheinn/visibletesla/SchedulerController.java:207 | reading the rendered digits back gives the number |
| Text.IntToDecimal | src/org/noroomattheinn/visibletesla/SchedulerController.java:207 | an int in a string concatenation renders as its digits without leading zeros, with a leading '-' exactly when it is negative, and the digits denote its magnitude |
| Text.Tenths | src/org/noroomattheinn/visibletesla/SchedulerController.java:127 | the value rounded half-up to tenths is within half a tenth of the value |
| Text.FormatTenths | src/org/noroomattheinn/visibletesla/SchedulerController.java:127 | `%3.1f` of a positive value is at least three characters: digits without a leading zero (except a lone "0"), a point, one digit, denoting the value rounded to tenths |
| Controller.SchedulerController.LogActivity | src/org/noroomattheinn/visibletesla/SchedulerController.java:293-301 | prepends the entry with its report flag and sets the last activity only when reported |
| EngineProperties.LogActivityEffect | src/org/noroomattheinn/visibletesla/SchedulerController.java:293-301 | the new entry heads the log and the older entries follow unchanged; the activity becomes the entry iff reported; nothing else changes |
| Controller.SchedulerController.WakeAndGetChargeState | src/org/noroomattheinn/visibletesla/SchedulerController.java:188-191 | marks the inactivity state awake, queries once, and enters the retry loop only when that answer is invalid, ending in the state `Engine.WakeAndGetChargeState` gives |
| Controller.SchedulerController.WakeRetries | src/org/noroomattheinn/visibletesla/SchedulerController.java:193-199 | the loop of at most 20 rounds of wake-up and query, overwriting `charge` each round and stopping at the first valid answer, ends in the state `Engine.WakeLoop` gives |
| EngineProperties.WakeLoopShape | src/org/noroomattheinn/visibletesla/SchedulerController.java:193-199 | the loop runs k rounds, at most the rounds left; every round before the last got an invalid answer, so it stops at the first valid one; the result is true iff the last answer is valid; failure means every round ran; `charge` holds the last round's answer; only charge and trace change |
| EngineProperties.WakeShape | src/org/noroomattheinn/visibletesla/SchedulerController.java:188-200 | one query then k ≤ 20 rounds; rounds happen iff the first answer is invalid, and every answer before the last is invalid; result true iff the stored charge, which is the last answer, is valid; only charge, trace and inactivity state change |
| EngineProperties.WakeFailsIffAllInvalid | src/org/noroomattheinn/visibletesla/SchedulerController.java:188-200 | the wake fails iff the first answer and the answers of all 20 rounds are invalid |
| EngineProperties.WakeTraceCounts | src/org/noroomattheinn/visibletesla/SchedulerController.java:193-199 | k rounds make k wake-ups and k queries |
| EngineProperties.WakeTraceOnly | src/org/noroomattheinn/visibletesla/SchedulerController.java:193-199 | k rounds make no call but wake-ups and queries |
| EngineProperties.FirstQueryCounts | src/org/noroomattheinn/visibletesla/SchedulerController.java:189-199 | the first query plus k rounds make k wake-ups, k + 1 queries and no call of any other kind |
| EngineProperties.WakeCallCounts | src/org/noroomattheinn/visibletesla/SchedulerController.java:189-199 | the same counts hold for the calls added between two states; with no round, the only call added is the query |
| EngineProperties.WakeBounds | src/org/noroomattheinn/visibletesla/SchedulerController.java:188-200 | at most 20 wake-ups and 21 queries and no call of any other kind; a valid first answer means success with a single query; failure means exactly 20 wake-ups and 21 queries |
| Controller.SchedulerController.SafeToRun | src/org/noroomattheinn/visibletesla/SchedulerController.java:155-186 | the gate's checks in the source's order, ending in the state `Engine.SafeToRun` gives |
| EngineProperties.GateDecision | src/org/noroomattheinn/visibletesla/SchedulerController.java:151-186 | only HVAC_ON is gated; battery below the threshold of 25 with the min-charge preference denies first; then pilot current -1 or 0 denies with the plugged-in preference; the full condition for allowing, both directions |
| EngineProperties.GateLogging | src/org/noroomattheinn/visibletesla/SchedulerController.java:155-186 | allowed iff there is no denial; an allowed command changes nothing; a denial adds exactly one reported entry "name: reason" and makes no call |
| Controller.SchedulerController.UnpluggedTrigger | src/org/noroomattheinn/visibletesla/SchedulerController.java:202-213 | sends one note when the pilot current is 0, and returns the source's result for each pilot current |
| Controller.SchedulerController.SendMessage | src/org/noroomattheinn/visibletesla/SchedulerController.java:134-149 | without a target, sends the default message to the configured address; with one, sends the rendered templates; ends in the state `Engine.SendMessage` gives |
| Controller.SchedulerController.Perform | src/org/noroomattheinn/visibletesla/SchedulerController.java:98-126 | the switch of tryCommand, case by case, ending in the state `Engine.Perform` gives |
| EngineProperties.HvacOnCalls | src/org/noroomattheinn/visibletesla/SchedulerController.java:111-120 | with a positive value the temperature is set first, in °F iff the unit is "F" or "f"; a failed set skips startAC and is the result; a non-positive value only calls startAC; nothing but the trace changes |
| EngineProperties.ChargeCalls | src/org/noroomattheinn/visibletesla/SchedulerController.java:99-109 | the target is set only for a positive value; CHARGE_ON always starts charging and returns that call's result; a failed target adds one reported "Unable to set charge target" line, which becomes the activity, unless it was "already_set"; charge and inactivity are unchanged |
| EngineProperties.AwakeSleepCalls | src/org/noroomattheinn/visibletesla/SchedulerController.java:122-123 | AWAKE and SLEEP succeed, make no call, and only set the inactivity mode |
| EngineProperties.UnpluggedCalls | src/org/noroomattheinn/visibletesla/SchedulerController.java:202-213 | UNPLUGGED succeeds and sends one note carrying the truncated range exactly when the pilot current is 0, and no call otherwise |
| EngineProperties.MessageCalls | src/org/noroomattheinn/visibletesla/SchedulerController.java:134-149 | MESSAGE without a target sends "No subject was specified" / "No body was specified" to the configured address and succeeds; with a target it sends the rendered subject and body to the target's address and succeeds iff delivered; nothing but the trace changes |
| Controller.SchedulerController.TryCommand | src/org/noroomattheinn/visibletesla/SchedulerController.java:92-132 | one attempt, then its entry logged, ending in the state `Engine.TryCommand` gives |
| EngineProperties.TryCommandEntry | src/org/noroomattheinn/visibletesla/SchedulerController.java:124-131 | an attempt adds exactly one entry on top of the switch's: "name: succeeded" or "name: failed, explanation"; it is reported iff the command is neither UNPLUGGED nor MESSAGE; the attempt returns the logged result's success; logging changes nothing but the log and the activity |
| EngineProperties.EntryNameShape | src/org/noroomattheinn/visibletesla/SchedulerController.java:127 | the entry's name is the command's name, followed by " (", `FormatTenths` of the value and ")" when the value is positive |
| EngineProperties.AlreadySetIsStillFailure | src/org/noroomattheinn/visibletesla/SchedulerController.java:101-131 | for CHARGE_SET, an "already_set" answer with `success == false` fails the attempt and logs only "name: failed, already_set" |
| EngineProperties.AlreadySetChargeOn | src/org/noroomattheinn/visibletesla/SchedulerController.java:99-131 | for CHARGE_ON with an "already_set" target answer, the attempt succeeds iff charging starts and logs only the start's outcome, with no "Unable to set charge target" line |
| Controller.SchedulerController.RunCommand | src/org/noroomattheinn/visibletesla/SchedulerController.java:76-90 | wake unless SLEEP, abort on a failed wake, gate, attempt, and retry once on failure, ending in the state `Engine.RunCommand` gives |
| EngineProperties.SleepNeverWakes | src/org/noroomattheinn/visibletesla/SchedulerController.java:79-89 | SLEEP makes no call, leaves the charge state and inactivity state alone, sets the mode to Sleep and logs one success, which becomes the activity |
| EngineProperties.WakeFailureAborts | src/org/noroomattheinn/visibletesla/SchedulerController.java:79-84 | a failed wake logs exactly "Can't wake vehicle - aborting" as reported after 20 wake-ups and 21 queries, and makes no call but wake-ups and queries, so no vehicle command |
| EngineProperties.DenialStopsRun | src/org/noroomattheinn/visibletesla/SchedulerController.java:85 | a gate denial ends the run: one reported entry, and no vehicle command after the wake |
| EngineProperties.RetryOnce | src/org/noroomattheinn/visibletesla/SchedulerController.java:85-89 | after the gate, the command is attempted once if that attempt succeeds and exactly twice otherwise, never more |
| EngineProperties.ChargeOffRetry | src/org/noroomattheinn/visibletesla/SchedulerController.java:85-110 | CHARGE_OFF stops charging once, or twice after a failed first stop; the newest entry reports the last attempt |
| EngineProperties.AlreadySetIsRetried | src/org/noroomattheinn/visibletesla/SchedulerController.java:85-109 | for CHARGE_SET, an "already_set" target answer with `success == false` makes the run set the target a second time |
| EngineProperties.UnpluggedRun | src/org/noroomattheinn/visibletesla/SchedulerController.java:202-213 | a woken UNPLUGGED run is attempted once, reports no activity, and makes one call iff the pilot current is 0 |
| EngineProperties.LogExtends | src/org/noroomattheinn/visibletesla/SchedulerController.java:293-298 | logging keeps every earlier entry and adds one |
| EngineProperties.PerformExtends | src/org/noroomattheinn/visibletesla/SchedulerController.java:98-126 | the switch only appends calls and log entries |
| EngineProperties.TryExtends | src/org/noroomattheinn/visibletesla/SchedulerController.java:92-132 | an attempt only appends calls, and adds at least one log entry |
| EngineProperties.RunExtends | src/org/noroomattheinn/visibletesla/SchedulerController.java:76-90 | a run keeps every earlier call and log entry |
| EngineProperties.SleepIdempotent | src/org/noroomattheinn/visibletesla/SchedulerController.java:79-89 | n SLEEP runs make no call, keep the charge state and the inactivity state, leave the mode Sleep, log n identical reported successes and make that success the last activity |
| EngineProperties.AwakeRunTrace | src/org/noroomattheinn/visibletesla/SchedulerController.java:79-90 | an AWAKE run adds no call but wake-ups and queries of the car |
| EngineProperties.AwakeNeverCommands | src/org/noroomattheinn/visibletesla/SchedulerController.java:79-90 | any number of AWAKE runs add no call but wake-ups and queries, so they never send the car a command |

## Left out

- The JavaFX wiring, the schedule grid and the tab handling are left out: `fxInitialize`, `prepareSchedulerUI`, `loadFromGrid`, `getRowOrColumn`, `activateTab`, `refresh` and `stop`. They only move data between UI nodes and the schedule items.
- `synchronized` and the scheduler's threads are left out. The model is one sequential controller.
- The five-second `Utils.sleep` between wake rounds is left out. It has no effect on the calls or the log.
- The log's date prefix and its `Tesla.logger` copy are left out. An entry is the undated text together with its report flag. The log is a sequence of entries, not one text block.
- The car's API, `sendNotification`, the preferences, `ScheduleItem.commandToName` and `MessageTemplate` rendering are not part of this model. They are the `World` and `Context` parameters. The model assumes the `World` is deterministic given the history of calls.
- The boolean result of `sendNotification` in `unpluggedTrigger` and in `sendMessage`'s no-target branch is ignored, as in the source.
- `ChargeController.getPilotCurent` is not part of this model. The pilot current it derives is a field of each charge state.
- `Result.Succeeded` and `Result.Failed` come from a file that is not part of this model. Their explanations are taken to be empty.
- Java doubles are modelled as exact reals everywhere. This covers the scheduled `value` in every `value > 0` test and in the `setTempF`/`setTempC` arguments, and the charge state's `range`. NaN and the infinities, which a `double` can carry, cannot be represented, and binary rounding is not modelled.
- Text.FormatTenths: rounding is half-up on the exact value, in an English locale. Locale-specific digits and separators are not modelled.
- Controller.SchedulerController.RunCommand: `runCommand` returns nothing. `Engine.RunCommand` additionally reports how the run ended, so the properties can name it. The method's contract states the new state only.
