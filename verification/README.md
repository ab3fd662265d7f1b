# Volume-control adapter model

This project models the core of a volume-control plugin. It binds to the host's default audio
output device, reads and changes the device's volume and mute state, and republishes device
change events to a single event stream. Two platform adapters are modelled:

- **Windows `VolumeController`** (`windows/volume_controller.cpp`). The controller holds two
  nullable handles: the endpoint-volume interface of the default render device and the
  registered change listener.
  - Every volume operation is guarded on the endpoint handle.
  - `SetVolumeUp` and `SetVolumeDown` write a target saturated to [0, 1].
  - `SetMaxVolume` and `SetMinVolume` walk the device's discrete step scale with one native
    step call per step, and abort at the first failing call.
  - `GetCurrentVolume` reports `current_step / step_count`.
- **Linux plugin** (`linux/flutter_volume_controller_plugin.cc`).
  - Method calls are dispatched onto the ALSA card by name. Raise and lower default to a step
    of 0.15.
  - A null card makes the handler return without responding.
  - One `send_events` flag is set by listen and cleared by cancel. Card events pass through
    only while it is set, and only a values-changed event sends the card's volume on the
    event channel.

Modules:

- `AudioEndpoint`: the abstract device behind `IAudioEndpointVolume`. Its state is the step
  index `currentStep` in `0 .. stepCount - 1` of `stepCount > 0` steps (the range `GetVolumeStepInfo`
  reports; a step-up on the top step succeeds and does nothing), the mute flag, a scalar level in [0, 1], the
  registered listeners and a log of every native call received. Each native method is a
  transition of that state. A failure oracle `fails`, a set of log positions, decides the
  outcome: the call at position `n` of the log fails iff `n` is in `fails`. So every failure
  pattern of a sequence of native calls is covered. The hardware's volume curve ties the level
  to the step position and is left arbitrary: writing a level moves the device to the curve's
  step for that level, and a step moves the level to the curve's level of the new step. So a
  read after a write sees the write, through the curve. The interface refuses a level outside
  [0, 1], so a write of such a level fails and changes nothing.
- `VolumeSpec`: each controller operation on a bound endpoint, written as a function from the
  device state before the call to the result and the state after it. The lemmas here state
  what those operations promise.
- `WindowsController`: the imperative `VolumeController` class. Each method is proved to follow
  its function in `VolumeSpec`, and to succeed without touching any device when unbound.
- `AlsaCard`: the abstract ALSA card (volume, watch, installed callback, handled operations,
  freed flag; whether the watch can be added is its failure oracle).
- `LinuxPlugin`: the pure dispatch and event filter, and the imperative `Plugin` class.

Volumes are `real`. The model states the saturation laws exactly, with no floating-point
rounding.

Each item below is behaviour of the code that a caller might not expect; the model follows the code:

- `DisposeController` and `DisposeNotification` release their objects but leave both handles
  set (windows/volume_controller.cpp:59-75). A second dispose therefore releases them again;
  disposal is not idempotent.
- `RegisterController` on a bound controller binds again. It does not keep the existing handle.
  Activation writes straight into the handle (windows/volume_controller.cpp:32-33), and a failed
  activation leaves it null. So a failed re-registration unbinds the controller without releasing
  the old endpoint, and a later `DisposeController` then skips the unregister of a listener that
  is still registered.
- `RegisterNotification` succeeds without registering anything when the controller is unbound.
  It does not report a failure.
- `SetVolume` does not clamp its argument. It clears mute even when the target is 0.
- `SetMaxVolume` issues `step_count - current_step` step-ups, one more than the distance to the
  top step `step_count - 1`; the last one does nothing. `GetCurrentVolume` divides by
  `step_count`, so it never reports 1.0: after `SetMaxVolume` it reports
  `(step_count - 1) / step_count`.
- On Linux, a call made while there is no card gets no response at all, not an error response.
  Card error and disconnect events are only logged; nothing is sent on the event stream.

## Model

| member | source | states |
|---|---|---|
| `VolumeSpec.RaiseTarget` | windows/volume_controller.cpp:152 | the raised target is `min(1, volume + step)`: never above 1, never below the current volume for a non-negative step, never negative for a volume in [0, 1] and a step no smaller than `-volume` |
| `VolumeSpec.LowerTarget` | windows/volume_controller.cpp:173 | the lowered target is `max(0, volume - step)`: never below 0, never above the current volume for a non-negative step |
| `VolumeSpec.StepsToScalar` | windows/volume_controller.cpp:237 | for a step index below the count, `current_step / step_count` lies in [0, 1): it is 0 exactly at step 0 and never reaches 1 |
| `VolumeSpec.RaiseThenLowerRestores` | windows/volume_controller.cpp:152-173 | the lowered target (:173) of a raised target (:152) that did not saturate is the starting volume |
| `VolumeSpec.FirstFault` | windows/volume_controller.cpp:108-112 | the number of calls before the first failing one: all earlier calls succeed, and the one at that position fails unless the whole run succeeded |
| `VolumeSpec.WalkUpStopsAtFirstFault` | windows/volume_controller.cpp:108-112 | a run of step-up calls succeeds iff no call fails; it keeps every step taken before the first failure, stopping at the top step where further step-ups do nothing; the level is the curve's level of the step reached (unchanged when the step did not move), and the step count, mute flag and curve are left alone |
| `VolumeSpec.Issued` | windows/volume_controller.cpp:108-112 | a run of at most `k` calls that stops at the first failure issues all `k` calls when none fails, and otherwise the calls before the first failure plus the failing one |
| `VolumeSpec.WalkUpLogsStepCalls` | windows/volume_controller.cpp:108-112 | a run of step-up calls appends exactly `Issued` step-up calls to the device's call log and no other call |
| `VolumeSpec.WalkDownLogsStepCalls` | windows/volume_controller.cpp:132-136 | the same for a run of step-down calls |
| `VolumeSpec.WalkDownStopsAtFirstFault` | windows/volume_controller.cpp:132-136 | the same for a run of step-down calls, with room below it |
| `VolumeSpec.WalkUpResult` | windows/volume_controller.cpp:108-112 | the whole device after a run of step-up calls: it succeeds iff no call fails, stands on the step reached (capped at the top step) with the curve's level for it, has only the issued step-up calls appended to its log, and is otherwise unchanged |
| `VolumeSpec.WalkDownResult` | windows/volume_controller.cpp:132-136 | the same for a run of step-down calls with room below it |
| `VolumeSpec.SetMaxVolumeWalk` | windows/volume_controller.cpp:94-116 | succeeds iff the step query, the unmute and all `step_count - current_step` step-ups succeed; it then stands on the top step `step_count - 1`, unmuted, having issued exactly those calls; a failed query leaves the device as it was with only the query logged, and a failed unmute leaves it as it was with only the query and the unmute logged; a failing step keeps the partial progress; the level is never written and follows the curve to the step reached |
| `VolumeSpec.SetMinVolumeWalk` | windows/volume_controller.cpp:118-140 | the same towards step 0, with exactly `current_step` step-down calls; failed query or unmute leave the device as it was with only those calls logged |
| `VolumeSpec.SetVolumeUnmutesFirst` | windows/volume_controller.cpp:77-92 | mute is cleared before the level is written; if that fails, the call fails and only the mute call is logged; once it succeeded the device stays unmuted even if the write fails; success leaves the device unmuted at the requested level, on the curve's step for it; failure leaves level and step as they were |
| `VolumeSpec.SetThenGetReportsLandingStep` | windows/volume_controller.cpp:77-92 | after a successful `SetVolume`, `GetCurrentVolume` reports the step the curve landed on for the written level, over the step count, unless its own query fails |
| `VolumeSpec.MaxVolumeReadsBelowOne` | windows/volume_controller.cpp:227-241 | after a successful `SetMaxVolume`, `GetCurrentVolume` reports `(step_count - 1) / step_count`, which is below 1, unless its own query fails |
| `VolumeSpec.CurrentVolumeIsStepRatio` | windows/volume_controller.cpp:227-241 | a value is reported iff the step query succeeds; it is `current_step / step_count`, in [0, 1]; only the query is logged |
| `VolumeSpec.VolumeUpWritesSaturatedTarget` | windows/volume_controller.cpp:142-161 | a failed volume read fails the call before any write; otherwise the written level is `min(1, volume + step)` and the device lands on the curve's step for it; a failed write changes neither level nor step; mute is untouched |
| `VolumeSpec.VolumeDownWritesSaturatedTarget` | windows/volume_controller.cpp:163-182 | a failed volume read fails the call before any write; otherwise the written level is `max(0, volume - step)` and the device lands on the curve's step for it; a failed write changes neither level nor step; mute is untouched |
| `WindowsController.VolumeController.constructor` | windows/volume_controller.cpp:7 | both handles start null |
| `WindowsController.VolumeController.RegisterController` | windows/volume_controller.cpp:14-39 | succeeds iff all three COM stages succeed, and the endpoint is then the activated one; a failure before activation leaves the handle as it was; a failed activation leaves it null |
| `WindowsController.VolumeController.RegisterNotification` | windows/volume_controller.cpp:41-57 | an empty callback fails with nothing changed; unbound, it succeeds without registering; bound, a fresh listener for the callback is stored and registered, and the call fails iff registration fails |
| `WindowsController.VolumeController.DisposeController` | windows/volume_controller.cpp:59-66 | on a bound endpoint, the listener is unregistered, then released, then the endpoint is released, in that order among the endpoint's calls; nothing else is logged |
| `WindowsController.VolumeController.DisposeNotification` | windows/volume_controller.cpp:68-75 | a stored listener is unregistered from a bound endpoint and released after that call |
| `WindowsController.VolumeController.SetVolume` | windows/volume_controller.cpp:77-92 | unbound: succeeds and changes nothing; bound: follows `SetVolumeOp` |
| `WindowsController.VolumeController.SetMaxVolume` | windows/volume_controller.cpp:94-116 | unbound: succeeds and changes nothing; bound: the counted loop follows `SetMaxOp` |
| `WindowsController.VolumeController.SetMinVolume` | windows/volume_controller.cpp:118-140 | unbound: succeeds and changes nothing; bound: the counted loop follows `SetMinOp` |
| `WindowsController.VolumeController.SetVolumeUp` | windows/volume_controller.cpp:142-161 | unbound: succeeds and changes nothing; bound: follows `VolumeUpOp` |
| `WindowsController.VolumeController.SetVolumeDown` | windows/volume_controller.cpp:163-182 | unbound: succeeds and changes nothing; bound: follows `VolumeDownOp` |
| `WindowsController.VolumeController.SetVolumeUpBySystemStep` | windows/volume_controller.cpp:184-195 | unbound: succeeds and changes nothing; bound: exactly one native step-up |
| `WindowsController.VolumeController.SetVolumeDownBySystemStep` | windows/volume_controller.cpp:197-208 | unbound: succeeds and changes nothing; bound: exactly one native step-down |
| `WindowsController.VolumeController.SetMute` | windows/volume_controller.cpp:210-225 | needs a bound endpoint; exactly one native mute call with the requested flag |
| `WindowsController.VolumeController.GetCurrentVolume` | windows/volume_controller.cpp:227-241 | unbound: 0.0; bound: follows `CurrentVolumeOp` |
| `LinuxPlugin.Dispatch` | linux/flutter_volume_controller_plugin.cc:36-50 | the four volume methods select exactly one card operation, named by the call; any other name selects none; `setVolume` carries its volume; raise and lower take the `step` argument, or 0.15 without one |
| `LinuxPlugin.DispatchRoundTrip` | linux/flutter_volume_controller_plugin.cc:36-50 | every card operation is selected by its own method name and arguments |
| `LinuxPlugin.DefaultStepWhenAbsent` | linux/flutter_volume_controller_plugin.cc:42-49 | without a `step` argument, raise and lower use 0.15 |
| `LinuxPlugin.EventActionOf` | linux/flutter_volume_controller_plugin.cc:79-100 | an event is dropped iff the stream is not listened to; the volume is sent iff the stream is listened to and the event is values-changed |
| `LinuxPlugin.Plugin.constructor` | linux/flutter_volume_controller_plugin.cc:102-108 | the plugin keeps the card `alsa_card_new` returned, possibly none, and starts unlistened |
| `LinuxPlugin.Plugin.HandleMethodCall` | linux/flutter_volume_controller_plugin.cc:24-53 | without a card, no operation runs and no response is given; otherwise the dispatched operation, if any, runs once on the card and exactly one response is given (the null response for an unknown name) |
| `LinuxPlugin.Plugin.OnAlsaEvent` | linux/flutter_volume_controller_plugin.cc:79-100 | the card's volume is appended to the event channel iff `EventActionOf` says so; nothing is sent otherwise |
| `LinuxPlugin.Plugin.OnAlsaValuesChanged` | linux/flutter_volume_controller_plugin.cc:70-77 | sends the card's current volume on the event channel |
| `LinuxPlugin.Plugin.EventListen` | linux/flutter_volume_controller_plugin.cc:117-134 | without a card, or when the watch cannot be added, returns an error with the flag unchanged; otherwise the card is watched, the callback is installed and the flag is set |
| `LinuxPlugin.Plugin.EventCancel` | linux/flutter_volume_controller_plugin.cc:136-147 | never fails; always leaves the flag cleared; removes the watch only when there is a card; so it is idempotent |
| `LinuxPlugin.Plugin.Dispose` | linux/flutter_volume_controller_plugin.cc:55-64 | the card is freed; its volume, watch, installed callback and handled operations are left as they were |

## Left out

- COM start-up and shutdown (`CoInitialize`, `CoUninitialize`) and the process-wide `GetInstance` singleton. The model works on an explicitly created controller.
- The internals of COM, of ALSA and of the Flutter method and event channels. The endpoint and the card are abstract objects with failure oracles; channel codecs, registrar set-up and GObject reference counting are not modelled.
- The COM objects that `RegisterController` obtains and never releases (the device enumerator and the device). The model keeps no reference count for them.
- IEEE single-precision rounding and the shape of the hardware volume curve. Volumes are exact reals and the curve is arbitrary, so a read-back within one step of the written level is not stated; `VolumeSpec.SetThenGetReportsLandingStep` states what the read-back is.
- `VolumeSpec.RaiseThenLowerRestores`: states the round trip of the two target computations only. On the device, `SetVolumeDown` reads the volume back as `current_step / step_count`, not as the level `SetVolumeUp` wrote, so raising then lowering restores the level only up to the volume curve's steps.
- The behaviour of the listener object once registered (the callback it runs on a device change). volume_notification.cpp is not part of this model.
- Threading of native callbacks. The source has no synchronisation to model.
- The card operations behind method_handler.h (`get_volume`, `set_volume`, `raise_volume`, `lower_volume`) and the replies they build are not modelled; the card records which operation ran and the plugin records that a reply was given.
- `LinuxPlugin.Plugin.HandleMethodCall`: requires a `setVolume` call to carry its `volume` argument when there is a card, for the reason given for `LinuxPlugin.Dispatch`; without a card the call is accepted with any arguments, as the source returns before reading them.
- `LinuxPlugin.Plugin.OnAlsaValuesChanged`: the card's volume read cannot fail in the model. The source ignores the status of `alsa_card_get_volume` and sends its local variable, which is uninitialised when the read fails.
- The Linux method and argument names come from constants.h, which is not part of this model. The model uses the names the plugin's other platforms share: `getVolume`, `setVolume`, `raiseVolume`, `lowerVolume`, `volume`, `step`.
- The code and message of the listen error. They come from constants.h, which is not part of this model.
- `LinuxPlugin.Dispatch`: requires that a `setVolume` call carries its `volume` argument. The source reads that argument without checking for it, and its behaviour without one is undefined.
- `LinuxPlugin.Plugin.Dispose`: frees the card only when there is one. `alsa_card_free` is called unconditionally in the source, but its handling of a null card is not part of this model. The unreference of the event channel is channel plumbing.
- The macOS sources: one holds only string constants, the other is a stream-handler wrapper over an output-device listener that is not part of this model.
