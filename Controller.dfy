/**
 * The controller screen as a state machine: the drone state, the newest-first
 * log, the status text and the slot that holds the Bluetooth link while it is
 * open. Connecting, disconnecting and sending are one atomic step each; what
 * the Bluetooth transport does is an outcome given to the step.
 */
module Controller {
  import opened Types
  import opened Updates

  /**
   * The Bluetooth transport object. Its pairing, writing and closing happen
   * outside this model; a step receives their outcome as a `LinkResult`.
   */
  class BluetoothService {
    constructor () {}
  }

  /** How one call into the transport ended: it resolved, or it was rejected with a message. */
  datatype LinkResult = Done | Failed(reason: string)

  const StatusDisconnected := "Desconectado"
  const StatusConnecting := "Conectando..."
  const StatusConnected := "Conectado"
  const StatusFailed := "Falló"

  const DisconnectedMessage := "Bluetooth desconectado."
  const SearchingMessage := "Buscando dispositivo Bluetooth..."
  const ConnectedMessage := "¡Dispositivo Bluetooth conectado con éxito!"
  const NotConnectedMessage := "No se puede enviar comando: No conectado."

  function ConnectFailedMessage(reason: string): string { "Conexión fallida: " + reason }

  function SentMessage(command: string): string { "Comando enviado: '" + command + "'" }

  function SendFailedMessage(command: string): string { "Fallo al enviar comando '" + command + "'" }

  class App {
    var droneState: DroneState
    var logs: seq<LogEntry>
    var statusText: string
    /** The open link, or null when there is none. */
    var service: BluetoothService?

    /**
     * The controller's invariant: the drone counts as connected exactly when a
     * link is held, the log holds at most a hundred lines, and the throttle is
     * in range.
     */
    ghost predicate Valid()
      reads this
    {
      && (droneState.isConnected <==> service != null)
      && |logs| <= LogCapacity
      && InRange(droneState)
    }

    /** The screen as it first appears: nothing connected, empty log. */
    constructor ()
      ensures Valid()
      ensures droneState == InitialDroneState && logs == [] && statusText == StatusDisconnected && service == null
    {
      droneState := InitialDroneState;
      logs := [];
      statusText := StatusDisconnected;
      service := null;
    }

    /** Records one line, stamped with the time `now`, in front of the log. */
    method AddLog(message: string, kind: LogKind, now: string)
      modifies this`logs
      ensures logs == PushLog(old(logs), LogEntry(now, message, kind))
      ensures |logs| <= LogCapacity
    {
      logs := PushLog(logs, LogEntry(now, message, kind));
    }

    /**
     * The connect button. With a link held it closes the link: once
     * `disconnect` resolves the drone state is reset, the status says so, one
     * info line is logged and the slot is emptied; if `disconnect` is rejected
     * the step stops there and nothing changes. Otherwise it tries to open a
     * fresh link: it logs that it is searching, and then either holds the link
     * and marks the drone connected, or, if `connect` is rejected, logs the
     * failure and leaves
     * the drone state and the slot as they were. `now` and `later` stamp the
     * first and second log line of the step.
     */
    method HandleConnect(disconnect: LinkResult, connect: LinkResult, now: string, later: string)
      requires Valid()
      modifies this
      ensures Valid()
      ensures old(droneState.isConnected && service != null) && disconnect.Failed? ==>
        droneState == old(droneState) && logs == old(logs) && statusText == old(statusText) && service == old(service)
      ensures old(droneState.isConnected && service != null) && disconnect.Done? ==>
        && droneState == InitialDroneState
        && statusText == StatusDisconnected
        && logs == PushLog(old(logs), LogEntry(now, DisconnectedMessage, Info))
        && service == null
      ensures !old(droneState.isConnected && service != null) && connect.Done? ==>
        && droneState == old(droneState).(isConnected := true)
        && statusText == StatusConnected
        && logs == PushLog(PushLog(old(logs), LogEntry(now, SearchingMessage, Info)), LogEntry(later, ConnectedMessage, Success))
        && service != null && fresh(service)
      ensures !old(droneState.isConnected && service != null) && connect.Failed? ==>
        && droneState == old(droneState)
        && statusText == StatusFailed
        && logs == PushLog(PushLog(old(logs), LogEntry(now, SearchingMessage, Info)), LogEntry(later, ConnectFailedMessage(connect.reason), Error))
        && service == old(service)
    {
      if droneState.isConnected && service != null {
        if disconnect.Failed? {
          // the rejection escapes the handler before anything is updated
          return;
        }
        droneState := InitialDroneState;
        statusText := StatusDisconnected;
        AddLog(DisconnectedMessage, Info, now);
        service := null;
      } else {
        statusText := StatusConnecting;
        AddLog(SearchingMessage, Info, now);
        var candidate := new BluetoothService();
        match connect {
          case Done =>
            service := candidate;
            droneState := MarkConnected(droneState);
            statusText := StatusConnected;
            AddLog(ConnectedMessage, Success, later);
          case Failed(reason) =>
            statusText := StatusFailed;
            AddLog(ConnectFailedMessage(reason), Error, later);
        }
      }
    }

    /**
     * Sends one command. Without a link nothing is attempted and one error
     * line is logged. With a link the command is written once: if `send`
     * resolves, one command line is logged and the optimistic update for the
     * command is applied; if it is rejected, one error line is logged and
     * nothing else changes. The status text and the link slot never change.
     * `attempted` says whether the transport was asked to write.
     */
    method SendCommand(command: string, send: LinkResult, now: string) returns (attempted: bool)
      requires Valid()
      modifies this
      ensures Valid()
      ensures attempted == old(droneState.isConnected && service != null)
      ensures service == old(service) && statusText == old(statusText)
      ensures droneState.isConnected == old(droneState.isConnected)
      ensures !attempted ==>
        droneState == old(droneState) && logs == PushLog(old(logs), LogEntry(now, NotConnectedMessage, Error))
      ensures attempted && send.Done? ==>
        droneState == ApplyCommand(old(droneState), command) && logs == PushLog(old(logs), LogEntry(now, SentMessage(command), Cmd))
      ensures attempted && send.Failed? ==>
        droneState == old(droneState) && logs == PushLog(old(logs), LogEntry(now, SendFailedMessage(command), Error))
    {
      attempted := droneState.isConnected && service != null;
      if attempted {
        if send.Done? {
          AddLog(SentMessage(command), Cmd, now);
          if command == "r" { droneState := Arm(droneState); }
          if command == "f" { droneState := Disarm(droneState); }
          if command == "+" { droneState := ThrottleUp(droneState); }
          if command == "-" { droneState := ThrottleDown(droneState); }
          if command == "x" { droneState := EmergencyStop(droneState); }
        } else {
          AddLog(SendFailedMessage(command), Error, now);
        }
      } else {
        AddLog(NotConnectedMessage, Error, now);
      }
    }

    /**
     * A press on the button that sends `command`, possible only while that
     * button is enabled. The guarded buttons (arm, disarm, calibrate,
     * emergency stop) are enabled only with a link, so a press on one always
     * reaches the transport; arm then cannot be pressed twice in a row, and
     * disarm or emergency stop cannot be pressed before arming.
     */
    method Press(command: string, send: LinkResult, now: string) returns (attempted: bool)
      requires Valid() && ButtonEnabled(droneState, command)
      modifies this
      ensures Valid()
      ensures command in {"r", "f", "c", "x"} ==> attempted
      ensures command == "r" ==> !old(droneState.isArmed)
      ensures command in {"f", "x"} ==> old(droneState.isArmed)
      ensures command == "r" && send.Done? ==> droneState.isArmed && !ButtonEnabled(droneState, "r")
      ensures attempted == old(droneState.isConnected && service != null)
      ensures service == old(service) && statusText == old(statusText)
      ensures droneState.isConnected == old(droneState.isConnected)
      ensures !attempted ==>
        droneState == old(droneState) && logs == PushLog(old(logs), LogEntry(now, NotConnectedMessage, Error))
      ensures attempted && send.Done? ==>
        droneState == ApplyCommand(old(droneState), command) && logs == PushLog(old(logs), LogEntry(now, SentMessage(command), Cmd))
      ensures attempted && send.Failed? ==>
        droneState == old(droneState) && logs == PushLog(old(logs), LogEntry(now, SendFailedMessage(command), Error))
    {
      attempted := SendCommand(command, send, now);
    }
  }

  /**
   * A connect attempt that fails, followed by a second press of the connect
   * button: the first leaves the controller disconnected with a search line
   * and an error line logged, and the second is a fresh attempt.
   */
  method RetryAfterFailedConnect(reason: string, t1: string, t2: string, t3: string, t4: string)
  {
    var app := new App();
    app.HandleConnect(Done, Failed(reason), t1, t2);
    assert !app.droneState.isConnected && app.service == null && app.statusText == StatusFailed;
    assert app.logs == [LogEntry(t2, ConnectFailedMessage(reason), Error), LogEntry(t1, SearchingMessage, Info)];
    app.HandleConnect(Done, Done, t3, t4);
    assert app.droneState.isConnected && app.service != null && app.statusText == StatusConnected;
    assert |app.logs| == 4;
  }

  /**
   * A short flight: sending without a link only logs an error; after
   * connecting, arming and three throttle-up commands the throttle is 30, and
   * disarming brings it back to 0. Pressing the connect button once more
   * closes the link and resets everything.
   */
  method FlightScenario(reason: string, t: string)
  {
    var app := new App();
    var attempted := app.Press("q", Done, t);
    assert !attempted && app.droneState == InitialDroneState;
    assert app.logs == [LogEntry(t, NotConnectedMessage, Error)];
    app.HandleConnect(Done, Done, t, t);
    attempted := app.Press("r", Done, t);
    assert app.droneState == DroneState(true, true, 0);
    attempted := app.Press("+", Done, t);
    attempted := app.Press("+", Done, t);
    attempted := app.Press("+", Failed(reason), t);
    assert app.droneState.throttle == 20;
    attempted := app.Press("+", Done, t);
    assert app.droneState == DroneState(true, true, 30);
    attempted := app.Press("f", Done, t);
    assert app.droneState == DroneState(true, false, 0);
    app.HandleConnect(Done, Done, t, t);
    assert app.droneState == InitialDroneState && app.service == null && app.statusText == StatusDisconnected;
    assert |app.logs| == 10;
  }
}
