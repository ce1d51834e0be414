/**
 * What repeated use of the updaters does: a run of log pushes keeps exactly the
 * newest hundred lines, runs of throttle presses clamp, and any run of sent
 * commands keeps the throttle in range and the connection flag untouched.
 */
module Properties {
  import opened Types
  import opened Updates

  /** The first `n` elements of `s`, or all of them when there are fewer. */
  function Take<T>(s: seq<T>, n: nat): (r: seq<T>)
    ensures |r| == Min(|s|, n)
  {
    s[..Min(|s|, n)]
  }

  /** `s` back to front. */
  function Reversed<T>(s: seq<T>): seq<T> {
    if s == [] then [] else Reversed(s[1..]) + [s[0]]
  }

  /** The log after pushing `entries` one after another, first one first. */
  function PushAll(logs: seq<LogEntry>, entries: seq<LogEntry>): seq<LogEntry>
    decreases |entries|
  {
    if entries == [] then logs else PushAll(PushLog(logs, entries[0]), entries[1..])
  }

  /** The throttle state after the same command has been sent `n` times. */
  function SendTimes(s: DroneState, command: string, n: nat): DroneState
    decreases n
  {
    if n == 0 then s else SendTimes(ApplyCommand(s, command), command, n - 1)
  }

  /** The state after a run of transmitted commands, first one first. */
  function SendAll(s: DroneState, commands: seq<string>): DroneState
    decreases |commands|
  {
    if commands == [] then s else SendAll(ApplyCommand(s, commands[0]), commands[1..])
  }

  lemma {:induction false} ReversedAt<T>(s: seq<T>, i: nat)
    requires i < |s|
    ensures |Reversed(s)| == |s|
    ensures Reversed(s)[i] == s[|s| - 1 - i]
  {
    if i < |s| - 1 {
      ReversedAt(s[1..], i);
    } else {
      ReversedLength(s[1..]);
    }
  }

  lemma {:induction false} ReversedLength<T>(s: seq<T>)
    ensures |Reversed(s)| == |s|
  {
    if s != [] {
      ReversedLength(s[1..]);
    }
  }

  /** One push is the first hundred lines of "new line, then the old log". */
  lemma PushLogIsTake(logs: seq<LogEntry>, entry: LogEntry)
    ensures PushLog(logs, entry) == Take([entry] + logs, LogCapacity)
  {
  }

  lemma TakeOfTake<T>(front: seq<T>, back: seq<T>, n: nat)
    ensures Take(front + Take(back, n), n) == Take(front + back, n)
  {
  }

  /**
   * However many lines are pushed, the log is the first hundred of the pushed
   * lines newest-first followed by the old log: exactly the newest insertions
   * survive and the oldest are the ones dropped.
   */
  lemma {:induction false} PushAllKeepsNewest(logs: seq<LogEntry>, entries: seq<LogEntry>)
    requires |logs| <= LogCapacity
    decreases |entries|
    ensures PushAll(logs, entries) == Take(Reversed(entries) + logs, LogCapacity)
  {
    if entries != [] {
      var e, rest := entries[0], entries[1..];
      calc {
        PushAll(logs, entries);
        PushAll(PushLog(logs, e), rest);
        { PushAllKeepsNewest(PushLog(logs, e), rest); }
        Take(Reversed(rest) + PushLog(logs, e), LogCapacity);
        { PushLogIsTake(logs, e); }
        Take(Reversed(rest) + Take([e] + logs, LogCapacity), LogCapacity);
        { TakeOfTake(Reversed(rest), [e] + logs, LogCapacity); }
        Take(Reversed(rest) + ([e] + logs), LogCapacity);
        { assert Reversed(rest) + ([e] + logs) == Reversed(entries) + logs; }
        Take(Reversed(entries) + logs, LogCapacity);
      }
    }
  }

  /**
   * Starting from the empty log, any number of pushes leaves at most a hundred
   * lines, and line `i` is the `i`-th most recent insertion.
   */
  lemma NewestHundredKept(entries: seq<LogEntry>)
    ensures |PushAll([], entries)| == Min(|entries|, LogCapacity)
    ensures forall i :: 0 <= i < |PushAll([], entries)| ==> PushAll([], entries)[i] == entries[|entries| - 1 - i]
  {
    PushAllKeepsNewest([], entries);
    ReversedLength(entries);
    assert Reversed(entries) + [] == Reversed(entries);
    forall i | 0 <= i < |PushAll([], entries)|
      ensures PushAll([], entries)[i] == entries[|entries| - 1 - i]
    {
      ReversedAt(entries, i);
    }
  }

  /** `n` throttle-up commands from a throttle in range reach min(t + 10n, 255). */
  lemma {:induction false} ThrottleUpTimes(s: DroneState, n: nat)
    requires InRange(s)
    decreases n
    ensures SendTimes(s, "+", n).throttle == Min(s.throttle + ThrottleStep * n, MaxThrottle)
    ensures SendTimes(s, "+", n).isArmed == s.isArmed
  {
    if n > 0 {
      ThrottleUpTimes(ApplyCommand(s, "+"), n - 1);
    }
  }

  /** `n` throttle-down commands from a throttle in range reach max(t - 10n, 0). */
  lemma {:induction false} ThrottleDownTimes(s: DroneState, n: nat)
    requires InRange(s)
    decreases n
    ensures SendTimes(s, "-", n).throttle == Max(s.throttle - ThrottleStep * n, 0)
    ensures SendTimes(s, "-", n).isArmed == s.isArmed
  {
    if n > 0 {
      ThrottleDownTimes(ApplyCommand(s, "-"), n - 1);
    }
  }

  /**
   * From the initial state, ten throttle-up commands give 100, eleven give
   * 110, and from the 26th on the throttle stays at 255.
   */
  lemma ThrottleFromRest(n: nat)
    ensures SendTimes(InitialDroneState, "+", 10).throttle == 100
    ensures SendTimes(InitialDroneState, "+", 11).throttle == 110
    ensures n >= 26 ==> SendTimes(InitialDroneState, "+", n).throttle == MaxThrottle
  {
    ThrottleUpTimes(InitialDroneState, 10);
    ThrottleUpTimes(InitialDroneState, 11);
    ThrottleUpTimes(InitialDroneState, n);
  }

  /**
   * Any run of transmitted commands from a state in range ends in range, with
   * the connection flag as it was: sending never connects or disconnects.
   */
  lemma {:induction false} SendAllKeepsInvariant(s: DroneState, commands: seq<string>)
    requires InRange(s)
    decreases |commands|
    ensures InRange(SendAll(s, commands))
    ensures SendAll(s, commands).isConnected == s.isConnected
  {
    if commands != [] {
      SendAllKeepsInvariant(ApplyCommand(s, commands[0]), commands[1..]);
    }
  }

  /**
   * The arm/disarm cycle as the buttons allow it: once arm has gone through,
   * arm and calibrate are disabled and disarm and emergency stop are enabled;
   * once disarm has gone through, the reverse holds and the throttle is 0.
   */
  lemma ArmDisarmButtons(s: DroneState)
    ensures ButtonEnabled(s, "r") ==>
      var a := ApplyCommand(s, "r");
      !ButtonEnabled(a, "r") && !ButtonEnabled(a, "c") && ButtonEnabled(a, "f") && ButtonEnabled(a, "x")
    ensures ButtonEnabled(s, "f") ==>
      var d := ApplyCommand(s, "f");
      ButtonEnabled(d, "r") && ButtonEnabled(d, "c") && !ButtonEnabled(d, "f") && !ButtonEnabled(d, "x") && d.throttle == 0
  {
  }

  /**
   * Emergency stop zeroes the throttle but leaves the vehicle armed, so after
   * it the disarm and emergency buttons stay enabled and arm stays disabled.
   */
  lemma EmergencyStopStaysArmed(s: DroneState)
    requires ButtonEnabled(s, "x")
    ensures ApplyCommand(s, "x").isArmed && ApplyCommand(s, "x").throttle == 0
    ensures ButtonEnabled(ApplyCommand(s, "x"), "f") && !ButtonEnabled(ApplyCommand(s, "x"), "r")
  {
  }
}
