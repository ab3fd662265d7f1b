/**
 * The Windows `VolumeController`: two nullable handles, the endpoint-volume
 * interface of the default output device and the registered change listener,
 * and the operations that drive the endpoint through them. Every operation
 * on a bound endpoint is proved to do what the matching function of
 * VolumeSpec says; every guarded operation on an unbound controller succeeds
 * without a native call.
 */
module WindowsController {
  import opened Wrappers
  import opened AudioEndpoint
  import opened VolumeSpec

  /** What the three COM stages of binding report: creating the device enumerator, finding the default render endpoint, activating its volume interface. */
  datatype ComBinding = ComBinding(enumeratorCreated: bool, defaultEndpointFound: bool, activated: bool)

  class VolumeController {
    var endpoint: Endpoint?
    var notification: VolumeNotification?

    ghost predicate Valid()
      reads this, endpoint
    {
      endpoint != null ==> endpoint.Valid()
    }

    constructor ()
      ensures Valid() && endpoint == null && notification == null
    {
      endpoint, notification := null, null;
    }

    /**
     * Binds to the default render endpoint, and the first failing stage makes
     * the call fail. Activation writes straight into the handle, and a failed
     * activation leaves it null; a failure before that leaves it as it was.
     */
    method RegisterController(com: ComBinding, device: Endpoint) returns (ok: bool)
      requires Valid() && device.Valid()
      modifies this`endpoint
      ensures Valid()
      ensures ok == (com.enumeratorCreated && com.defaultEndpointFound && com.activated)
      ensures ok ==> endpoint == device
      ensures !com.enumeratorCreated || !com.defaultEndpointFound ==> endpoint == old(endpoint)
      ensures com.enumeratorCreated && com.defaultEndpointFound && !com.activated ==> endpoint == null
    {
      if !com.enumeratorCreated {
        return false;
      }
      if !com.defaultEndpointFound {
        return false;
      }
      if !com.activated {
        endpoint := null;
        return false;
      }
      endpoint := device;
      return true;
    }

    /**
     * Installs a listener that forwards to `callback`. An empty callback
     * fails; an unbound controller succeeds without registering anything.
     */
    method RegisterNotification(callback: Option<nat>) returns (ok: bool)
      requires Valid()
      modifies this`notification, endpoint
      ensures Valid() && endpoint == old(endpoint)
      ensures callback.None? ==> !ok && notification == old(notification)
      ensures callback.None? && endpoint != null ==> unchanged(endpoint)
      ensures callback.Some? && endpoint == null ==> ok && notification == old(notification)
      ensures callback.Some? && endpoint != null ==>
                && notification != null && fresh(notification)
                && notification.callback == callback.value && !notification.released
                && ok == (|old(endpoint.calls)| !in endpoint.fails)
                && endpoint.State() == Logged(old(endpoint.State()), Call.RegisterControlChangeNotify)
                && endpoint.listeners == if ok then old(endpoint.listeners) + {notification} else old(endpoint.listeners)
    {
      if callback.None? {
        return false;
      }
      if endpoint != null {
        var n := new VolumeNotification(callback.value);
        notification := n;
        ok := endpoint.RegisterControlChangeNotify(n);
        if !ok {
          return false;
        }
      }
      return true;
    }

    /**
     * Releases the listener and then the endpoint. Neither handle is cleared,
     * so a second call releases both again.
     */
    method DisposeController()
      requires Valid()
      modifies endpoint, notification
      ensures Valid()
      ensures endpoint == null && notification != null ==> notification.released == old(notification.released)
      ensures endpoint != null ==>
                && endpoint.State()
                   == old(endpoint.State()).(calls := old(endpoint.calls)
                        + (if notification != null then [Call.UnregisterControlChangeNotify] else [])
                        + [Call.Release])
                // the listener goes after the unregister and before the endpoint's own release
                && (notification != null ==> notification.released && notification.releasedAt == |old(endpoint.calls)| + 1)
                && endpoint.listeners
                   == if notification != null && |old(endpoint.calls)| !in endpoint.fails
                      then old(endpoint.listeners) - {notification} else old(endpoint.listeners)
    {
      if endpoint != null {
        DisposeNotification();
        endpoint.Release();
      }
    }

    /** Unregisters the listener from a bound endpoint, then releases it. */
    method DisposeNotification()
      requires Valid()
      modifies endpoint, notification
      ensures Valid()
      ensures notification != null ==> notification.released
      ensures notification == null && endpoint != null ==> unchanged(endpoint)
      ensures notification != null && endpoint != null ==>
                && endpoint.State() == Logged(old(endpoint.State()), Call.UnregisterControlChangeNotify)
                && notification.releasedAt == |endpoint.calls|
                && endpoint.listeners
                   == if |old(endpoint.calls)| in endpoint.fails then old(endpoint.listeners)
                      else old(endpoint.listeners) - {notification}
    {
      if notification != null {
        if endpoint != null {
          var _ := endpoint.UnregisterControlChangeNotify(notification);
        }
        notification.Release(endpoint);
      }
    }

    /** Clears mute, then writes the level; unbound, it does nothing and succeeds. */
    method SetVolume(volume: real) returns (ok: bool)
      requires Valid()
      modifies endpoint
      ensures Valid()
      ensures endpoint == null ==> ok
      ensures endpoint != null ==>
                && (ok, endpoint.State()) == SetVolumeOp(old(endpoint.State()), endpoint.fails, volume)
                && endpoint.listeners == old(endpoint.listeners)
    {
      if endpoint != null {
        var unmuted := SetMute(false);
        if !unmuted {
          return false;
        }
        ok := endpoint.SetMasterVolumeLevelScalar(volume);
        if !ok {
          return false;
        }
      }
      return true;
    }

    /** Walks the step scale up to the top; unbound, it does nothing and succeeds. */
    method SetMaxVolume() returns (ok: bool)
      requires Valid()
      modifies endpoint
      ensures Valid()
      ensures endpoint == null ==> ok
      ensures endpoint != null ==>
                && (ok, endpoint.State()) == SetMaxOp(old(endpoint.State()), endpoint.fails)
                && endpoint.listeners == old(endpoint.listeners)
    {
      if endpoint != null {
        var got, currentStep, stepCount := endpoint.GetVolumeStepInfo();
        if !got {
          return false;
        }
        var unmuted := SetMute(false);
        if !unmuted {
          return false;
        }
        var index := currentStep;
        while index < stepCount
          invariant Valid() && endpoint.listeners == old(endpoint.listeners)
          invariant currentStep <= index <= stepCount
          invariant SetMaxOp(old(endpoint.State()), endpoint.fails) == WalkUp(endpoint.State(), endpoint.fails, stepCount - index)
        {
          var stepped := SetVolumeUpBySystemStep();
          if !stepped {
            return false;
          }
          index := index + 1;
        }
      }
      return true;
    }

    /** Walks the step scale down to step 0; unbound, it does nothing and succeeds. */
    method SetMinVolume() returns (ok: bool)
      requires Valid()
      modifies endpoint
      ensures Valid()
      ensures endpoint == null ==> ok
      ensures endpoint != null ==>
                && (ok, endpoint.State()) == SetMinOp(old(endpoint.State()), endpoint.fails)
                && endpoint.listeners == old(endpoint.listeners)
    {
      if endpoint != null {
        var got, currentStep, stepCount := endpoint.GetVolumeStepInfo();
        if !got {
          return false;
        }
        var unmuted := SetMute(false);
        if !unmuted {
          return false;
        }
        var index := currentStep;
        while index > 0
          invariant Valid() && endpoint.listeners == old(endpoint.listeners)
          invariant index <= currentStep
          invariant SetMinOp(old(endpoint.State()), endpoint.fails) == WalkDown(endpoint.State(), endpoint.fails, index)
        {
          var stepped := SetVolumeDownBySystemStep();
          if !stepped {
            return false;
          }
          index := index - 1;
        }
      }
      return true;
    }

    /** Raises the level by `step`, saturating at 1; unbound, it does nothing and succeeds. */
    method SetVolumeUp(step: real) returns (ok: bool)
      requires Valid()
      modifies endpoint
      ensures Valid()
      ensures endpoint == null ==> ok
      ensures endpoint != null ==>
                && (ok, endpoint.State()) == VolumeUpOp(old(endpoint.State()), endpoint.fails, step)
                && endpoint.listeners == old(endpoint.listeners)
    {
      if endpoint != null {
        var currentVolume := GetCurrentVolume();
        if currentVolume.None? {
          return false;
        }
        var volume := currentVolume.value;
        var target := if 1.0 - volume < step then 1.0 else volume + step;
        ok := endpoint.SetMasterVolumeLevelScalar(target);
        if !ok {
          return false;
        }
      }
      return true;
    }

    /** Lowers the level by `step`, saturating at 0; unbound, it does nothing and succeeds. */
    method SetVolumeDown(step: real) returns (ok: bool)
      requires Valid()
      modifies endpoint
      ensures Valid()
      ensures endpoint == null ==> ok
      ensures endpoint != null ==>
                && (ok, endpoint.State()) == VolumeDownOp(old(endpoint.State()), endpoint.fails, step)
                && endpoint.listeners == old(endpoint.listeners)
    {
      if endpoint != null {
        var currentVolume := GetCurrentVolume();
        if currentVolume.None? {
          return false;
        }
        var volume := currentVolume.value;
        var target := if volume < step then 0.0 else volume - step;
        ok := endpoint.SetMasterVolumeLevelScalar(target);
        if !ok {
          return false;
        }
      }
      return true;
    }

    /** One hardware step up; unbound, it does nothing and succeeds. */
    method SetVolumeUpBySystemStep() returns (ok: bool)
      requires Valid()
      modifies endpoint
      ensures Valid()
      ensures endpoint == null ==> ok
      ensures endpoint != null ==>
                && (ok, endpoint.State()) == StepUpOp(old(endpoint.State()), endpoint.fails)
                && endpoint.listeners == old(endpoint.listeners)
    {
      if endpoint != null {
        ok := endpoint.VolumeStepUp();
        if !ok {
          return false;
        }
      }
      return true;
    }

    /** One hardware step down; unbound, it does nothing and succeeds. */
    method SetVolumeDownBySystemStep() returns (ok: bool)
      requires Valid()
      modifies endpoint
      ensures Valid()
      ensures endpoint == null ==> ok
      ensures endpoint != null ==>
                && (ok, endpoint.State()) == StepDownOp(old(endpoint.State()), endpoint.fails)
                && endpoint.listeners == old(endpoint.listeners)
    {
      if endpoint != null {
        ok := endpoint.VolumeStepDown();
        if !ok {
          return false;
        }
      }
      return true;
    }

    /** Sets or clears mute. The source does not check the handle, so a bound endpoint is required. */
    method SetMute(isMute: bool) returns (ok: bool)
      requires Valid() && endpoint != null
      modifies endpoint
      ensures Valid()
      ensures (ok, endpoint.State()) == SetMuteOp(old(endpoint.State()), endpoint.fails, isMute)
      ensures endpoint.listeners == old(endpoint.listeners)
    {
      if isMute {
        ok := endpoint.SetMute(true);
      } else {
        ok := endpoint.SetMute(false);
      }
    }

    /** The volume as `current_step / step_count`; 0 when unbound, nothing when the step query fails. */
    method GetCurrentVolume() returns (volume: Option<real>)
      requires Valid()
      modifies endpoint
      ensures Valid()
      ensures endpoint == null ==> volume == Some(0.0)
      ensures endpoint != null ==>
                && (volume, endpoint.State()) == CurrentVolumeOp(old(endpoint.State()), endpoint.fails)
                && endpoint.listeners == old(endpoint.listeners)
    {
      var currentVolume := 0.0;
      if endpoint != null {
        var got, currentStep, stepCount := endpoint.GetVolumeStepInfo();
        if !got {
          return None;
        }
        currentVolume := currentStep as real / stepCount as real;
      }
      return Some(currentVolume);
    }
  }
}
