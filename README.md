# Drone remote-control screen: controller state machine

This project models the controller behind a single-screen drone remote control
(`App.tsx`). The controller holds four pieces of state:

- the drone state: connected, armed, and throttle;
- a newest-first log of at most a hundred lines;
- a status text;
- a slot that holds the Bluetooth link while one is open.

Three handlers change this state. `addLog` pushes a log line. `handleConnect`
toggles the link. `sendCommand` writes a one-character command to the link
and, when the write succeeds, makes an optimistic update of the drone state.
Nothing from the vehicle ever confirms that update.

Files:

- `Types.dfy` holds the records from `types.ts` and the initial drone state.
- `Updates.dfy` holds the pure state updaters: the log push, the arm, disarm,
  throttle and emergency-stop transforms, the command table that chooses among
  them, and the enabling conditions of the four guarded buttons.
- `Properties.dfy` holds lemmas about repeated use of the updaters.
- `Controller.dfy` holds the class `App`. Its fields are the four pieces of
  state, and its invariant `Valid()` says three things: the drone counts as
  connected exactly when a link is held, the log holds at most 100 lines, and
  the throttle lies in [0, 255]. Every handler keeps this invariant. The file
  also holds two client methods that replay short sessions.

The Bluetooth transport is not modelled. Each call into it (`connect`,
`disconnect`, `sendCommand`) is a `LinkResult` parameter: `Done`, or
`Failed(reason)`. The wall-clock timestamps are opaque string parameters.

Behaviour of the code worth knowing:

- The arm, disarm, calibrate and emergency guards are not checked inside
  `sendCommand`. They exist only as the buttons' `disabled` conditions.
  `Controller.App.Press` models them as a precondition of a button press.
- Connect has no reentrancy guard. The connect branch runs whenever the
  controller is not both connected and holding a link.
- `disconnect()` is awaited outside any `try` (App.tsx:31). If it is rejected,
  the handler stops: nothing is reset and the link stays held.
- A failed connect writes two log lines: an info line, then an error line.
- Sends are not serialised and cannot be cancelled. Each handler is one atomic
  step.

## Model

| member | source | states |
|---|---|---|
| `Updates.PushLog` | App.tsx:20-27 | the new line comes first, followed by the old lines in their order; the length is min(old + 1, 100), so the oldest line is the one dropped |
| `Updates.ThrottleUp` | App.tsx:63 | throttle rises by exactly 10 unless that would pass 255, in which case it is 255; never above 255; within [0, 255] it stays there and never decreases; armed and connected flags untouched |
| `Updates.ThrottleDown` | App.tsx:64 | throttle falls by exactly 10 unless that would pass 0, in which case it is 0; never below 0; within [0, 255] it stays there and never increases; armed and connected flags untouched |
| `Updates.ApplyCommand` | App.tsx:59-65 | the optimistic update per command: `r` arms and keeps the throttle; `f` disarms and zeroes the throttle; `x` zeroes the throttle and keeps the arm flag; `+`/`-` are the clamped steps; every other command changes nothing; the connection flag never changes and the throttle stays in range |
| `Updates.Arm` | App.tsx:61 | the arm updater; what it does is stated by `Updates.ApplyCommand`'s clause for `r` |
| `Updates.Disarm` | App.tsx:62 | the disarm updater; what it does is stated by `Updates.ApplyCommand`'s clause for `f` |
| `Updates.EmergencyStop` | App.tsx:65 | the emergency-stop updater; what it does is stated by `Updates.ApplyCommand`'s clause for `x` |
| `Updates.MarkConnected` | App.tsx:43 | the updater applied after a successful connect; `Controller.App.HandleConnect` states that it sets the connection flag and keeps the arm flag and throttle |
| `Updates.ButtonEnabled` | App.tsx:113-122 | a guarded button (arm, disarm, calibrate, emergency stop) is enabled only with a link; the direction and throttle pads are always enabled; which arm state each guarded button needs is stated by `Controller.App.Press` and `Properties.ArmDisarmButtons` |
| `Controller.App.Valid` | App.tsx:18-43 | the controller invariant: connected exactly when a link is held, at most 100 log lines, throttle in [0, 255]; every handler keeps it |
| `Properties.PushAllKeepsNewest` | App.tsx:26 | any run of pushes onto a log of at most 100 lines gives the first 100 of (pushed lines, newest first) followed by the old log |
| `Properties.NewestHundredKept` | App.tsx:15-26 | from the empty log, any number of pushes leaves min(n, 100) lines, and line i is the i-th most recent insertion |
| `Properties.ThrottleUpTimes` | App.tsx:63 | n throttle-up commands from a throttle t in range give min(t + 10n, 255) and keep the arm flag |
| `Properties.ThrottleDownTimes` | App.tsx:64 | n throttle-down commands from a throttle t in range give max(t - 10n, 0) and keep the arm flag |
| `Properties.ThrottleFromRest` | App.tsx:10-14 | from the initial state, 10 throttle-ups give 100, 11 give 110, and 26 or more give 255 |
| `Properties.SendAllKeepsInvariant` | App.tsx:61-65 | any run of transmitted commands keeps the throttle in [0, 255] and never changes the connection flag |
| `Properties.ArmDisarmButtons` | App.tsx:113-122 | after an allowed arm, arm and calibrate are disabled and disarm and emergency are enabled; after an allowed disarm it is the reverse, with throttle 0 |
| `Properties.EmergencyStopStaysArmed` | App.tsx:65 | emergency stop zeroes the throttle but leaves the vehicle armed, so disarm stays enabled and arm stays disabled |
| `Controller.App.constructor` | App.tsx:10-18 | starts disconnected, disarmed, at throttle 0, with an empty log, status "Desconectado" and no link held; the invariant holds |
| `Controller.App.AddLog` | App.tsx:20-27 | the log becomes the push of one stamped line onto the old log, and only the log changes |
| `Controller.App.HandleConnect` | App.tsx:29-53 | while connected: on a resolved disconnect, resets the drone state, sets "Desconectado", logs one info line and empties the slot; on a rejected disconnect, changes nothing. Otherwise: logs the search line; on success, holds a fresh link, sets connected (arm and throttle kept), sets "Conectado" and logs success; on failure, keeps the drone state and the slot, sets "Falló" and logs the error with its reason. The invariant is kept |
| `Controller.App.SendCommand` | App.tsx:55-72 | without a link, attempts nothing, leaves the drone state alone and logs one error line; with a link, makes one attempt: on success it logs one `cmd` line and applies `ApplyCommand`, on failure it logs one error line and leaves the drone state alone; never changes the status, the slot or the connection flag |
| `Controller.App.Press` | App.tsx:113-122 | a press on an enabled button: it has the effect of `SendCommand` on every path, including the no-link path a pad can reach; a guarded button always reaches the transport; arm is only possible while disarmed, disarm and emergency only while armed; after a successful arm, arm is disabled |

## Left out

- Rendering, layout, styling, icons and component props (App.tsx:74-145) are UI and are not modelled.
- The internals of `BluetoothService` (pairing, writing, closing) are not part of this model. Only the outcome of each call is modelled, as a `LinkResult` parameter.
- The timestamp text from `new Date().toLocaleTimeString()` is a string parameter. The `console.error` call on a failed connect is not modelled.
- `async`/`await` suspension is not modelled. Each handler is one atomic step, so the transient status "Conectando..." set during a connect attempt appears only inside the step and is overwritten before the step ends.
- React's batching of state setters and the stale closure of `useCallback` with its dependency list (App.tsx:72) are not modelled. Setters apply in program order on the current state.
- Per-connection FIFO serialisation, cancellation of in-flight sends and a reentrancy guard on connect are not modelled. The code has none of them.
