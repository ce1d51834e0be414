/**
 * The pure state updaters of the controller: the log push and the optimistic
 * transforms applied to the drone state when a command has been sent, plus the
 * enabling conditions of the guarded action buttons.
 */
module Updates {
  import opened Types

  /** The log never holds more lines than this. */
  const LogCapacity := 100
  const MaxThrottle := 255
  const ThrottleStep := 10

  function Min(a: int, b: int): int { if a <= b then a else b }
  function Max(a: int, b: int): int { if a >= b then a else b }

  /**
   * The log updater: the new line goes in front of the first 99 old lines, so
   * the log stays newest-first and the oldest line falls off once it is full.
   */
  function PushLog(logs: seq<LogEntry>, entry: LogEntry): (r: seq<LogEntry>)
    ensures |r| == Min(|logs| + 1, LogCapacity)
    ensures r[0] == entry
    ensures forall i :: 1 <= i < |r| ==> r[i] == logs[i - 1]
  {
    [entry] + logs[..Min(|logs|, LogCapacity - 1)]
  }

  /** The throttle lies in the range the vehicle accepts. */
  predicate InRange(s: DroneState) {
    0 <= s.throttle <= MaxThrottle
  }

  // The single-field transforms, one per updater the controller uses.

  function Arm(s: DroneState): DroneState { s.(isArmed := true) }

  function Disarm(s: DroneState): DroneState { s.(isArmed := false, throttle := 0) }

  function EmergencyStop(s: DroneState): DroneState { s.(throttle := 0) }

  function MarkConnected(s: DroneState): DroneState { s.(isConnected := true) }

  /**
   * Throttle up: one step of 10, clamped at 255. It never leaves the range,
   * never lowers a throttle in range, and clamps only when a full step would
   * pass the top.
   */
  function ThrottleUp(s: DroneState): (r: DroneState)
    ensures r.isConnected == s.isConnected && r.isArmed == s.isArmed
    ensures r.throttle <= MaxThrottle
    ensures r.throttle == s.throttle + ThrottleStep || (r.throttle == MaxThrottle && s.throttle + ThrottleStep >= MaxThrottle)
    ensures InRange(s) ==> InRange(r) && s.throttle <= r.throttle
  {
    s.(throttle := Min(s.throttle + ThrottleStep, MaxThrottle))
  }

  /**
   * Throttle down: one step of 10, clamped at 0. It never goes below 0, never
   * raises a throttle in range, and clamps only when a full step would pass 0.
   */
  function ThrottleDown(s: DroneState): (r: DroneState)
    ensures r.isConnected == s.isConnected && r.isArmed == s.isArmed
    ensures r.throttle >= 0
    ensures r.throttle == s.throttle - ThrottleStep || (r.throttle == 0 && s.throttle - ThrottleStep <= 0)
    ensures InRange(s) ==> InRange(r) && r.throttle <= s.throttle
  {
    s.(throttle := Max(s.throttle - ThrottleStep, 0))
  }

  /** The commands whose transmission changes the tracked state. */
  predicate IsTracked(command: string) {
    command in {"r", "f", "+", "-", "x"}
  }

  /**
   * The optimistic update made after a command has been transmitted. It never
   * touches the connection flag, keeps the throttle in range, and follows the
   * command table; every other command leaves the state as it was.
   */
  function ApplyCommand(s: DroneState, command: string): (r: DroneState)
    ensures r.isConnected == s.isConnected
    ensures command == "r" ==> r.isArmed && r.throttle == s.throttle
    ensures command == "f" ==> !r.isArmed && r.throttle == 0
    ensures command == "x" ==> r.isArmed == s.isArmed && r.throttle == 0
    ensures command == "+" ==> r == ThrottleUp(s)
    ensures command == "-" ==> r == ThrottleDown(s)
    ensures !IsTracked(command) ==> r == s
    ensures InRange(s) ==> InRange(r)
  {
    if command == "r" then Arm(s)
    else if command == "f" then Disarm(s)
    else if command == "+" then ThrottleUp(s)
    else if command == "-" then ThrottleDown(s)
    else if command == "x" then EmergencyStop(s)
    else s
  }

  /**
   * Whether the button that sends `command` can be pressed. Arm and calibrate
   * need a link and a disarmed vehicle; disarm and emergency stop need a link
   * and an armed vehicle; the direction pads are never disabled.
   */
  predicate ButtonEnabled(s: DroneState, command: string): (enabled: bool)
    ensures enabled && command in {"r", "f", "c", "x"} ==> s.isConnected
    ensures command !in {"r", "f", "c", "x"} ==> enabled
  {
    if command == "r" || command == "c" then s.isConnected && !s.isArmed
    else if command == "f" || command == "x" then s.isConnected && s.isArmed
    else true
  }
}
