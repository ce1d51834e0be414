/**
 * The two records the drone controller keeps: the controller's belief about
 * the vehicle, and one line of its diagnostic log.
 */
module Types {

  /** The kind tag of a log line; `Info` is what a log call gets by default. */
  datatype LogKind = Info | Error | Success | Cmd

  /** One log line. The timestamp is the wall-clock text at the time of the call. */
  datatype LogEntry = LogEntry(timestamp: string, message: string, kind: LogKind)

  /**
   * What the controller believes about the vehicle. Nothing ever confirms it:
   * the arm and throttle fields are predictions made when a command is sent.
   */
  datatype DroneState = DroneState(isConnected: bool, isArmed: bool, throttle: int)

  /** The state the controller starts in: not connected, not armed, throttle 0. */
  const InitialDroneState := DroneState(false, false, 0)
}
