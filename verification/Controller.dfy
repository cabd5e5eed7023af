/**
  The lidar device loop together with the command listener that feeds it.

  The loop keeps two booleans: the desired state `shouldRun` (the shared
  run flag, written by the listener) and the actual state `lidarRunning`
  (owned by the loop, initially false). Each loop iteration reads the flag
  once and emits abstract hardware actions. The listener and the loop run
  concurrently; the model interleaves them as a sequence of inputs, each
  either a control message or one loop iteration.
 */
module Controller {
  import opened Command
  import opened Frames

  /** Scan mode passed to `ScanOptions::with_mode`. */
  const ScanMode: nat := 2

  /** Milliseconds the loop sleeps while the lidar is off and stays off. */
  const IdleSleepMillis: nat := 500

  /** What one `grab_scan` call returns. */
  datatype GrabResult =
    | Scanned(scan: seq<ScanPoint>)
    | OperationTimeout
    | OtherError

  /** Hardware and hand-off actions the loop performs. */
  datatype Action =
    | StartScan(mode: nat)          // `start_scan_with_options`
    | StopMotor                      // `stop_motor`
    | Grab                           // `grab_scan`
    | Send(scan: seq<ScanPoint>)     // `scan_sender.blocking_send`
    | Sleep(millis: nat)             // `thread::sleep`

  datatype Device = Device(shouldRun: bool, lidarRunning: bool)

  /** Interleaved inputs: a control message, or one iteration of the loop
      together with the result its grab would return. */
  datatype Input = Message(text: string) | Iteration(grab: GrabResult)

  datatype StepResult = StepResult(device: Device, actions: seq<Action>)

  /** The device state right after `start_lidar_driver` spawns the loop. */
  function Start(startWithLidarRunning: bool): (d: Device)
    ensures d.shouldRun == startWithLidarRunning && !d.lidarRunning
  {
    Device(startWithLidarRunning, false)
  }

  /** The listener's store of a received message. */
  function Listen(d: Device, text: string): (d': Device)
    ensures d'.shouldRun <==> IsOnCommand(text)
    ensures d'.lidarRunning == d.lidarRunning
  {
    d.(shouldRun := IsOnCommand(text))
  }

  /** What the loop hands downstream after a grab: the scan on success,
      nothing on `OperationTimeout` (`continue`) or any other error (logged). */
  function Delivered(grab: GrabResult): seq<Action>
  {
    match grab
    case Scanned(scan) => [Send(scan)]
    case OperationTimeout => []
    case OtherError => []
  }

  /** A grab hands on exactly the scan it returned, and only on success. */
  lemma DeliveredOnlyScans(grab: GrabResult)
    ensures |Delivered(grab)| <= 1
    ensures forall a :: a in Delivered(grab) <==> grab.Scanned? && a == Send(grab.scan)
  {
  }

  /** The body of the device loop, as written. It never writes the flag
      and leaves the hardware in the flag's state; `Iterate` states what
      it does on the way. */
  function LoopBody(d: Device, grab: GrabResult): (r: StepResult)
    ensures r.device == Device(d.shouldRun, d.shouldRun)
  {
    if d.shouldRun then
      var start := if !d.lidarRunning then [StartScan(ScanMode)] else [];
      StepResult(d.(lidarRunning := true), start + ([Grab] + Delivered(grab)))
    else if d.lidarRunning then
      StepResult(d.(lidarRunning := false), [StopMotor])
    else
      StepResult(d, [Sleep(IdleSleepMillis)])
  }

  /** One iteration of the device loop, with what it promises. */
  function Iterate(d: Device, grab: GrabResult): (r: StepResult)
    // the loop never writes the flag, and afterwards the hardware is in the wanted state
    ensures r.device.shouldRun == d.shouldRun && r.device.lidarRunning == d.shouldRun
    // a start only when the flag is up and the lidar is not running
    ensures StartScan(ScanMode) in r.actions <==> d.shouldRun && !d.lidarRunning
    ensures forall a :: a in r.actions && a.StartScan? ==> a == StartScan(ScanMode)
    // a stop only when the flag is down and the lidar is running
    ensures StopMotor in r.actions <==> !d.shouldRun && d.lidarRunning
    // off and staying off: nothing but a sleep
    ensures !d.shouldRun && !d.lidarRunning ==> r.actions == [Sleep(IdleSleepMillis)]
    // a grab is attempted exactly when the flag is up, and only a successful grab is sent, unchanged
    ensures Grab in r.actions <==> d.shouldRun
    ensures forall s :: Send(s) in r.actions <==> d.shouldRun && grab == Scanned(s)
  {
    LoopBody(d, grab)
  }

  /** One input: a message goes to the listener, an iteration runs the loop
      body. `Iterate` is `LoopBody` by definition, so its contract describes
      every iteration here. */
  function Apply(d: Device, input: Input): StepResult
  {
    match input
    case Message(text) => StepResult(Listen(d, text), [])
    case Iteration(grab) => LoopBody(d, grab)
  }

  /** The device state and the action trace after a sequence of inputs. */
  function Run(startWithLidarRunning: bool, inputs: seq<Input>): (r: StepResult)
    ensures r.device.shouldRun == CurrentFlag(startWithLidarRunning, inputs)
  {
    if |inputs| == 0 then StepResult(Start(startWithLidarRunning), [])
    else
      var before := Run(startWithLidarRunning, inputs[..|inputs| - 1]);
      var step := Apply(before.device, inputs[|inputs| - 1]);
      StepResult(step.device, before.actions + step.actions)
  }

  // ---------------------------------------------------------------------
  // Start/stop alternation

  predicate IsMotorCommand(a: Action)
  {
    a.StartScan? || a == StopMotor
  }

  /** The start and stop commands of a trace, in order. */
  function MotorCommands(actions: seq<Action>): (r: seq<Action>)
    ensures forall i :: 0 <= i < |r| ==> IsMotorCommand(r[i])
    ensures |r| <= |actions|
  {
    if |actions| == 0 then []
    else MotorCommands(actions[..|actions| - 1])
         + (if IsMotorCommand(actions[|actions| - 1]) then [actions[|actions| - 1]] else [])
  }

  lemma {:induction false} MotorCommandsAppend(a: seq<Action>, b: seq<Action>)
    ensures MotorCommands(a + b) == MotorCommands(a) + MotorCommands(b)
    decreases |b|
  {
    if |b| == 0 {
      assert a + b == a;
    } else {
      var b' := b[..|b| - 1];
      assert (a + b)[..|a + b| - 1] == a + b';
      assert (a + b)[|a + b| - 1] == b[|b| - 1];
      MotorCommandsAppend(a, b');
    }
  }

  lemma MotorCommandsSingle(a: Action)
    ensures MotorCommands([a]) == if IsMotorCommand(a) then [a] else []
  {
    assert [a][..0] == [];
  }

  /** The motor commands one input contributes to the trace. */
  function StepCommands(d: Device, input: Input): seq<Action>
  {
    if !input.Iteration? then []
    else if d.shouldRun && !d.lidarRunning then [StartScan(ScanMode)]
    else if !d.shouldRun && d.lidarRunning then [StopMotor]
    else []
  }

  lemma StepMotorCommands(d: Device, input: Input)
    ensures MotorCommands(Apply(d, input).actions) == StepCommands(d, input)
  {
    if input.Iteration? {
      var sent := Delivered(input.grab);
      assert MotorCommands([]) == [];
      MotorCommandsSingle(Grab);
      if input.grab.Scanned? {
        MotorCommandsSingle(Send(input.grab.scan));
      }
      assert MotorCommands(sent) == [];
      MotorCommandsAppend([Grab], sent);
      if d.shouldRun {
        var start := if !d.lidarRunning then [StartScan(ScanMode)] else [];
        MotorCommandsSingle(StartScan(ScanMode));
        MotorCommandsAppend(start, [Grab] + sent);
      } else if d.lidarRunning {
        MotorCommandsSingle(StopMotor);
      } else {
        MotorCommandsSingle(Sleep(IdleSleepMillis));
      }
    }
  }

  /** Starts at even positions, stops at odd positions. */
  predicate Alternating(cmds: seq<Action>)
  {
    forall i :: 0 <= i < |cmds| ==> (cmds[i] == StartScan(ScanMode) <==> i % 2 == 0)
                                     && (cmds[i] == StopMotor <==> i % 2 == 1)
  }

  /** The device state after an input: a message sets the flag, an
      iteration brings the hardware to the flag's state. */
  lemma StepDevice(d: Device, input: Input)
    ensures Apply(d, input).device ==
              match input
              case Message(text) => Device(IsOnCommand(text), d.lidarRunning)
              case Iteration(_) => Device(d.shouldRun, d.shouldRun)
  {
  }

  lemma AlternationStep(d: Device, input: Input, cmds: seq<Action>)
    requires Alternating(cmds) && (d.lidarRunning <==> |cmds| % 2 == 1)
    ensures var cmds' := cmds + StepCommands(d, input);
            Alternating(cmds') && (Apply(d, input).device.lidarRunning <==> |cmds'| % 2 == 1)
  {
    StepDevice(d, input);
    var cmds' := cmds + StepCommands(d, input);
    assert forall i :: 0 <= i < |cmds| ==> cmds'[i] == cmds[i];
  }

  /** Starts and stops strictly alternate, the first command is a start, and
      the lidar is running exactly when the last command was a start. */
  lemma {:induction false} StartStopAlternate(startWithLidarRunning: bool, inputs: seq<Input>)
    ensures var r := Run(startWithLidarRunning, inputs);
            var cmds := MotorCommands(r.actions);
            && Alternating(cmds)
            && (r.device.lidarRunning <==> |cmds| % 2 == 1)
  {
    if |inputs| > 0 {
      var prev := inputs[..|inputs| - 1];
      var input := inputs[|inputs| - 1];
      StartStopAlternate(startWithLidarRunning, prev);
      var before := Run(startWithLidarRunning, prev);
      var step := Apply(before.device, input);
      MotorCommandsAppend(before.actions, step.actions);
      StepMotorCommands(before.device, input);
      AlternationStep(before.device, input, MotorCommands(before.actions));
    }
  }

  // ---------------------------------------------------------------------
  // One start per rising edge of the flag, one stop per falling edge

  /** The flag the listener has stored after `inputs`: the command of the
      last message, or the initial value when there was none. */
  function CurrentFlag(startWithLidarRunning: bool, inputs: seq<Input>): bool
  {
    if |inputs| == 0 then startWithLidarRunning
    else match inputs[|inputs| - 1]
         case Message(text) => IsOnCommand(text)
         case Iteration(_) => CurrentFlag(startWithLidarRunning, inputs[..|inputs| - 1])
  }

  /** The flag value each loop iteration observes, in order. */
  function ObservedFlags(startWithLidarRunning: bool, inputs: seq<Input>): seq<bool>
  {
    if |inputs| == 0 then []
    else
      var prev := inputs[..|inputs| - 1];
      ObservedFlags(startWithLidarRunning, prev)
      + (if inputs[|inputs| - 1].Iteration? then [CurrentFlag(startWithLidarRunning, prev)] else [])
  }

  /** The command a change of the flag from `was` to `now` calls for. */
  function EdgeCommand(was: bool, now: bool): seq<Action>
  {
    if now && !was then [StartScan(ScanMode)]
    else if !now && was then [StopMotor]
    else []
  }

  /** The last flag observed, false before the first iteration. */
  function LastFlag(flags: seq<bool>): bool
  {
    |flags| > 0 && flags[|flags| - 1]
  }

  /** A start for every false-to-true change and a stop for every
      true-to-false change of `flags`, with the lidar initially off. */
  function Edges(flags: seq<bool>): seq<Action>
  {
    if |flags| == 0 then []
    else
      var prev := flags[..|flags| - 1];
      Edges(prev) + EdgeCommand(LastFlag(prev), flags[|flags| - 1])
  }

  lemma EdgesAppend(flags: seq<bool>, now: bool)
    ensures Edges(flags + [now]) == Edges(flags) + EdgeCommand(LastFlag(flags), now)
    ensures LastFlag(flags + [now]) == now
  {
    assert (flags + [now])[..|flags|] == flags;
  }

  lemma IterationCommands(d: Device, input: Input)
    requires input.Iteration?
    ensures StepCommands(d, input) == EdgeCommand(d.lidarRunning, d.shouldRun)
  {
  }

  /** The loop issues exactly one start per rising edge and one stop per
      falling edge of the flag values it observes, and the hardware state
      follows the last observed flag. */
  lemma {:induction false} CommandsFollowFlagEdges(startWithLidarRunning: bool, inputs: seq<Input>)
    ensures var r := Run(startWithLidarRunning, inputs);
            var flags := ObservedFlags(startWithLidarRunning, inputs);
            && MotorCommands(r.actions) == Edges(flags)
            && r.device.shouldRun == CurrentFlag(startWithLidarRunning, inputs)
            && r.device.lidarRunning == LastFlag(flags)
  {
    if |inputs| > 0 {
      var prev := inputs[..|inputs| - 1];
      var input := inputs[|inputs| - 1];
      CommandsFollowFlagEdges(startWithLidarRunning, prev);
      var before := Run(startWithLidarRunning, prev);
      var step := Apply(before.device, input);
      MotorCommandsAppend(before.actions, step.actions);
      StepMotorCommands(before.device, input);
      StepDevice(before.device, input);
      var prevFlags := ObservedFlags(startWithLidarRunning, prev);
      assert Run(startWithLidarRunning, inputs) == StepResult(step.device, before.actions + step.actions);
      if input.Iteration? {
        assert ObservedFlags(startWithLidarRunning, inputs) == prevFlags + [before.device.shouldRun];
        IterationCommands(before.device, input);
        EdgesAppend(prevFlags, before.device.shouldRun);
      } else {
        assert ObservedFlags(startWithLidarRunning, inputs) == prevFlags;
      }
    }
  }

  lemma ObservedFlagsAppend(startWithLidarRunning: bool, inputs: seq<Input>, input: Input)
    ensures CurrentFlag(startWithLidarRunning, inputs + [input])
            == if input.Message? then IsOnCommand(input.text) else CurrentFlag(startWithLidarRunning, inputs)
    ensures ObservedFlags(startWithLidarRunning, inputs + [input])
            == ObservedFlags(startWithLidarRunning, inputs)
               + (if input.Iteration? then [CurrentFlag(startWithLidarRunning, inputs)] else [])
  {
    assert (inputs + [input])[..|inputs|] == inputs;
  }

  lemma ToggleObservedFlags(on: string, off: string, g1: GrabResult, g2: GrabResult, g3: GrabResult)
    requires IsOnCommand(on) && !IsOnCommand(off)
    ensures ObservedFlags(false, [Iteration(g1), Message(on), Iteration(g2), Message(off), Iteration(g3)])
            == [false, true, false]
  {
    var in1 := [Iteration(g1)];
    var in2 := in1 + [Message(on)];
    var in3 := in2 + [Iteration(g2)];
    var in4 := in3 + [Message(off)];
    var in5 := in4 + [Iteration(g3)];
    ObservedFlagsAppend(false, [], Iteration(g1));
    assert [] + [Iteration(g1)] == in1;
    ObservedFlagsAppend(false, in1, Message(on));
    ObservedFlagsAppend(false, in2, Iteration(g2));
    ObservedFlagsAppend(false, in3, Message(off));
    ObservedFlagsAppend(false, in4, Iteration(g3));
    assert in5 == [Iteration(g1), Message(on), Iteration(g2), Message(off), Iteration(g3)];
  }

  lemma ToggleEdges()
    ensures Edges([false, true, false]) == [StartScan(ScanMode), StopMotor]
  {
    EdgesAppend([], false);
    EdgesAppend([false], true);
    EdgesAppend([false, true], false);
    assert [] + [false] == [false];
    assert [false] + [true] == [false, true];
    assert [false, true] + [false] == [false, true, false];
  }

  /** Toggling once: the flag starts false, an "on" message
      arrives, then an "off" message, with a loop iteration before, between
      and after them, whatever the grabs return: exactly one start, then
      exactly one stop. */
  lemma ToggleOnce(on: string, off: string, g1: GrabResult, g2: GrabResult, g3: GrabResult)
    requires IsOnCommand(on) && !IsOnCommand(off)
    ensures MotorCommands(Run(false, [Iteration(g1), Message(on), Iteration(g2), Message(off), Iteration(g3)]).actions)
            == [StartScan(ScanMode), StopMotor]
  {
    ToggleObservedFlags(on, off, g1, g2, g3);
    ToggleEdges();
    CommandsFollowFlagEdges(false, [Iteration(g1), Message(on), Iteration(g2), Message(off), Iteration(g3)]);
  }

  /** The same scenario with the literal messages "on" and "off". */
  lemma ToggleOnOff()
    ensures MotorCommands(Run(false, [Iteration(OperationTimeout), Message("on"), Iteration(OperationTimeout),
                                      Message("off"), Iteration(OperationTimeout)]).actions)
            == [StartScan(ScanMode), StopMotor]
  {
    assert IsOnCommand("on") && !IsOnCommand("off");
    ToggleOnce("on", "off", OperationTimeout, OperationTimeout, OperationTimeout);
  }

  // ---------------------------------------------------------------------
  // What reaches the frame encoder

  /** The scans handed downstream in a trace, in order. */
  function SentScans(actions: seq<Action>): seq<seq<ScanPoint>>
  {
    if |actions| == 0 then []
    else SentScans(actions[..|actions| - 1])
         + (if actions[|actions| - 1].Send? then [actions[|actions| - 1].scan] else [])
  }

  lemma {:induction false} SentScansAppend(a: seq<Action>, b: seq<Action>)
    ensures SentScans(a + b) == SentScans(a) + SentScans(b)
    decreases |b|
  {
    if |b| == 0 {
      assert a + b == a;
    } else {
      var b' := b[..|b| - 1];
      assert (a + b)[..|a + b| - 1] == a + b';
      assert (a + b)[|a + b| - 1] == b[|b| - 1];
      SentScansAppend(a, b');
    }
  }

  lemma SentScansSingle(a: Action)
    ensures SentScans([a]) == if a.Send? then [a.scan] else []
  {
    assert [a][..0] == [];
  }

  /** Reference: the scans of the successful grabs made while the observed
      flag was up. */
  function GrabbedWhileOn(startWithLidarRunning: bool, inputs: seq<Input>): seq<seq<ScanPoint>>
  {
    if |inputs| == 0 then []
    else
      var prev := inputs[..|inputs| - 1];
      var input := inputs[|inputs| - 1];
      GrabbedWhileOn(startWithLidarRunning, prev)
      + (if input.Iteration? && input.grab.Scanned? && CurrentFlag(startWithLidarRunning, prev)
         then [input.grab.scan] else [])
  }

  lemma StepSentScans(d: Device, input: Input)
    ensures SentScans(Apply(d, input).actions)
            == if input.Iteration? && input.grab.Scanned? && d.shouldRun then [input.grab.scan] else []
  {
    if input.Iteration? {
      var sent := Delivered(input.grab);
      assert SentScans([]) == [];
      SentScansSingle(Grab);
      if input.grab.Scanned? {
        SentScansSingle(Send(input.grab.scan));
      }
      SentScansAppend([Grab], sent);
      if d.shouldRun {
        var start := if !d.lidarRunning then [StartScan(ScanMode)] else [];
        SentScansSingle(StartScan(ScanMode));
        SentScansAppend(start, [Grab] + sent);
      } else if d.lidarRunning {
        SentScansSingle(StopMotor);
      } else {
        SentScansSingle(Sleep(IdleSleepMillis));
      }
    }
  }

  /** Every scan grabbed while the flag was up is sent, unchanged and in
      order; nothing else is sent (no timeout or driver error sends
      anything). */
  lemma {:induction false} SendsExactlyTheGrabbedScans(startWithLidarRunning: bool, inputs: seq<Input>)
    ensures SentScans(Run(startWithLidarRunning, inputs).actions) == GrabbedWhileOn(startWithLidarRunning, inputs)
    ensures Run(startWithLidarRunning, inputs).device.shouldRun == CurrentFlag(startWithLidarRunning, inputs)
  {
    if |inputs| > 0 {
      var prev := inputs[..|inputs| - 1];
      var input := inputs[|inputs| - 1];
      SendsExactlyTheGrabbedScans(startWithLidarRunning, prev);
      var before := Run(startWithLidarRunning, prev);
      var step := Apply(before.device, input);
      assert Run(startWithLidarRunning, inputs) == StepResult(step.device, before.actions + step.actions);
      SentScansAppend(before.actions, step.actions);
      StepSentScans(before.device, input);
      StepDevice(before.device, input);
    }
  }
}
