/**
 * The default audio output endpoint as the Windows volume controller sees it:
 * an abstract device behind the `IAudioEndpointVolume` interface.
 *
 * The device has a discrete step index `currentStep` in `0 .. stepCount - 1`
 * (the range `GetVolumeStepInfo` reports), a mute flag, a scalar master level in [0, 1], the set of registered
 * change listeners and a log of every native call it has received. Whether a
 * native call fails is decided by a failure oracle, a set of log positions:
 * the call that takes position `n` in the log fails iff `n in fails`. The
 * hardware ties the scalar level to the step position by a volume curve of
 * its own, which the model leaves arbitrary: writing a level moves the device
 * to the step the curve gives for it, and a step moves the level to the
 * curve's level for the new step.
 */
module AudioEndpoint {

  /** One call on the endpoint-volume interface, named after the native method. */
  datatype Call =
    | GetVolumeStepInfo
    | SetMute(mute: bool)
    | SetMasterVolumeLevelScalar(level: real)
    | VolumeStepUp
    | VolumeStepDown
    | RegisterControlChangeNotify
    | UnregisterControlChangeNotify
    | Release

  /** The failure oracle: the log positions whose native call fails. */
  type Oracle = set<nat>

  /** The hardware's volume curve: the step a scalar level falls on, and the scalar level of a step. */
  datatype Curve = Curve(stepOf: real -> nat, levelOf: nat -> real)

  /** The observable volume state of the device together with its call log. */
  datatype Device = Device(currentStep: nat, stepCount: nat, muted: bool, level: real, calls: seq<Call>, curve: Curve)
  {
    /** The device reports at least one step, its step index lies below the count and its level in [0, 1]. */
    predicate Valid() {
      0 < stepCount && currentStep < stepCount && 0.0 <= level <= 1.0
    }

    /** The step the device settles on after `level` is written, kept on the scale. */
    function StepFor(level: real): (step: nat)
      ensures 0 < stepCount ==> step < stepCount
    {
      var s := curve.stepOf(level);
      if s < stepCount || stepCount == 0 then s else stepCount - 1
    }

    /** The level the device reports on `step`, kept in [0, 1]. */
    function LevelFor(step: nat): (level: real)
      ensures 0.0 <= level <= 1.0
    {
      var l := curve.levelOf(step);
      if l < 0.0 then 0.0 else if 1.0 < l then 1.0 else l
    }
  }

  /** The device after it has received `c` and changed nothing else. */
  function Logged(d: Device, c: Call): Device {
    d.(calls := d.calls + [c])
  }

  // The native primitives, each a transition of the device. The boolean is
  // the success of the call (SUCCEEDED(hr)).

  /** `GetVolumeStepInfo`: on success the caller reads `(d.currentStep, d.stepCount)`. */
  function NativeStepInfo(d: Device, fails: Oracle): (bool, Device) {
    (|d.calls| !in fails, Logged(d, GetVolumeStepInfo))
  }

  /** `SetMute`. */
  function NativeSetMute(d: Device, fails: Oracle, mute: bool): (bool, Device) {
    var ok := |d.calls| !in fails;
    (ok, Logged(if ok then d.(muted := mute) else d, SetMute(mute)))
  }

  /**
   * `SetMasterVolumeLevelScalar`; the interface refuses a level outside
   * [0, 1]. The device lands on the step its curve gives for the level.
   */
  function NativeSetLevel(d: Device, fails: Oracle, level: real): (bool, Device) {
    var ok := |d.calls| !in fails && 0.0 <= level <= 1.0;
    (ok, Logged(if ok then d.(level := level, currentStep := d.StepFor(level)) else d, SetMasterVolumeLevelScalar(level)))
  }

  /**
   * `VolumeStepUp`: one step up, to the curve's level of the new step. On the
   * top step, `stepCount - 1`, the call succeeds and does nothing.
   */
  function NativeStepUp(d: Device, fails: Oracle): (bool, Device) {
    var ok := |d.calls| !in fails;
    var moved :=
      if ok && d.currentStep + 1 < d.stepCount then d.(currentStep := d.currentStep + 1, level := d.LevelFor(d.currentStep + 1))
      else d;
    (ok, Logged(moved, VolumeStepUp))
  }

  /** `VolumeStepDown`: one step down, to the curve's level of the new step, staying put at the bottom of the scale. */
  function NativeStepDown(d: Device, fails: Oracle): (bool, Device) {
    var ok := |d.calls| !in fails;
    var moved :=
      if ok && 0 < d.currentStep then d.(currentStep := d.currentStep - 1, level := d.LevelFor(d.currentStep - 1))
      else d;
    (ok, Logged(moved, VolumeStepDown))
  }

  /** The change listener (`VolumeNotification`), a reference-counted native object. */
  class VolumeNotification {
    /** The host callback the listener forwards changes to. */
    const callback: nat
    var released: bool
    /** When it was last released, as the number of native calls the endpoint had received by then. */
    ghost var releasedAt: nat

    constructor (callback: nat)
      ensures this.callback == callback && !released
    {
      this.callback := callback;
      released := false;
      releasedAt := 0;
    }

    /** Drops the caller's reference; the release is placed after the calls `e` has received so far. */
    method Release(ghost e: Endpoint?)
      modifies this
      ensures released && releasedAt == if e == null then 0 else |e.calls|
    {
      released := true;
      releasedAt := if e == null then 0 else |e.calls|;
    }
  }

  /** The `IAudioEndpointVolume` handle of the default output device. */
  class Endpoint {
    var currentStep: nat
    var stepCount: nat
    var muted: bool
    var level: real
    var calls: seq<Call>
    var listeners: set<VolumeNotification>
    const fails: Oracle
    const curve: Curve

    function State(): Device
      reads this
    {
      Device(currentStep, stepCount, muted, level, calls, curve)
    }

    ghost predicate Valid()
      reads this
    {
      State().Valid()
    }

    constructor (currentStep: nat, stepCount: nat, muted: bool, level: real, fails: Oracle, curve: Curve)
      requires Device(currentStep, stepCount, muted, level, [], curve).Valid()
      ensures Valid() && State() == Device(currentStep, stepCount, muted, level, [], curve)
      ensures listeners == {} && this.fails == fails
    {
      this.currentStep := currentStep;
      this.stepCount := stepCount;
      this.muted := muted;
      this.level := level;
      this.calls := [];
      this.listeners := {};
      this.fails := fails;
      this.curve := curve;
    }

    method GetVolumeStepInfo() returns (ok: bool, step: nat, count: nat)
      requires Valid()
      modifies this`calls
      ensures Valid()
      ensures (ok, State()) == NativeStepInfo(old(State()), fails)
      ensures ok ==> step == currentStep && count == stepCount
    {
      ok := |calls| !in fails;
      step, count := currentStep, stepCount;
      calls := calls + [Call.GetVolumeStepInfo];
    }

    method SetMute(mute: bool) returns (ok: bool)
      requires Valid()
      modifies this`muted, this`calls
      ensures Valid()
      ensures (ok, State()) == NativeSetMute(old(State()), fails, mute)
    {
      ok := |calls| !in fails;
      if ok {
        muted := mute;
      }
      calls := calls + [Call.SetMute(mute)];
    }

    method SetMasterVolumeLevelScalar(level: real) returns (ok: bool)
      requires Valid()
      modifies this`level, this`currentStep, this`calls
      ensures Valid()
      ensures (ok, State()) == NativeSetLevel(old(State()), fails, level)
    {
      ok := |calls| !in fails && 0.0 <= level <= 1.0;
      if ok {
        currentStep := State().StepFor(level);
        this.level := level;
      }
      calls := calls + [Call.SetMasterVolumeLevelScalar(level)];
    }

    method VolumeStepUp() returns (ok: bool)
      requires Valid()
      modifies this`currentStep, this`level, this`calls
      ensures Valid()
      ensures (ok, State()) == NativeStepUp(old(State()), fails)
    {
      ok := |calls| !in fails;
      if ok && currentStep + 1 < stepCount {
        level := State().LevelFor(currentStep + 1);
        currentStep := currentStep + 1;
      }
      calls := calls + [Call.VolumeStepUp];
    }

    method VolumeStepDown() returns (ok: bool)
      requires Valid()
      modifies this`currentStep, this`level, this`calls
      ensures Valid()
      ensures (ok, State()) == NativeStepDown(old(State()), fails)
    {
      ok := |calls| !in fails;
      if ok && 0 < currentStep {
        level := State().LevelFor(currentStep - 1);
        currentStep := currentStep - 1;
      }
      calls := calls + [Call.VolumeStepDown];
    }

    method RegisterControlChangeNotify(n: VolumeNotification) returns (ok: bool)
      requires Valid()
      modifies this`listeners, this`calls
      ensures Valid()
      ensures State() == Logged(old(State()), Call.RegisterControlChangeNotify)
      ensures ok == (|old(calls)| !in fails)
      ensures listeners == if ok then old(listeners) + {n} else old(listeners)
    {
      ok := |calls| !in fails;
      if ok {
        listeners := listeners + {n};
      }
      calls := calls + [Call.RegisterControlChangeNotify];
    }

    method UnregisterControlChangeNotify(n: VolumeNotification) returns (ok: bool)
      requires Valid()
      modifies this`listeners, this`calls
      ensures Valid()
      ensures State() == Logged(old(State()), Call.UnregisterControlChangeNotify)
      ensures ok == (|old(calls)| !in fails)
      ensures listeners == if ok then old(listeners) - {n} else old(listeners)
    {
      ok := |calls| !in fails;
      if ok {
        listeners := listeners - {n};
      }
      calls := calls + [Call.UnregisterControlChangeNotify];
    }

    /** Drops the caller's reference; the call always goes through. */
    method Release()
      requires Valid()
      modifies this`calls
      ensures Valid()
      ensures State() == Logged(old(State()), Call.Release)
    {
      calls := calls + [Call.Release];
    }
  }
}
