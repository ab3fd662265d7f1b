/**
 * The Linux plugin object: method-call dispatch onto the ALSA card, the
 * one-flag subscription state of the event stream, and the filter that
 * decides which card events reach the event channel.
 */
module LinuxPlugin {
  import opened Wrappers
  import opened AlsaCard

  const MethodGetVolume: string := "getVolume"
  const MethodSetVolume: string := "setVolume"
  const MethodRaiseVolume: string := "raiseVolume"
  const MethodLowerVolume: string := "lowerVolume"
  const ArgVolume: string := "volume"
  const ArgStep: string := "step"

  /** The step of `raiseVolume` and `lowerVolume` when the call carries none. */
  const DefaultStep: real := 0.15

  /** The floating-point arguments of a method call, by key. */
  type Args = map<string, real>

  /** A method call's arguments are usable when `setVolume` carries its volume. */
  predicate WellFormed(name: string, args: Args) {
    name == MethodSetVolume ==> ArgVolume in args
  }

  /** The method name that requests an operation. */
  function MethodOf(op: CardOp): string {
    match op
    case GetVolume => MethodGetVolume
    case SetVolume(_) => MethodSetVolume
    case RaiseVolume(_) => MethodRaiseVolume
    case LowerVolume(_) => MethodLowerVolume
  }

  /** The step argument, 0.15 when the call carries none. */
  function StepArg(args: Args): real {
    if ArgStep in args then args[ArgStep] else DefaultStep
  }

  /**
   * The card operation a method call selects: the four volume methods select
   * exactly one operation each, named by the call, and every other name
   * selects none.
   */
  function Dispatch(name: string, args: Args): (op: Option<CardOp>)
    requires WellFormed(name, args)
    ensures op.None? <==> name !in {MethodGetVolume, MethodSetVolume, MethodRaiseVolume, MethodLowerVolume}
    ensures op.Some? ==> MethodOf(op.value) == name
    ensures op.Some? && op.value.SetVolume? ==> op.value.volume == args[ArgVolume]
    ensures op.Some? && (op.value.RaiseVolume? || op.value.LowerVolume?) ==>
              op.value.step == if ArgStep in args then args[ArgStep] else 0.15
  {
    if name == MethodGetVolume then Some(GetVolume)
    else if name == MethodSetVolume then Some(SetVolume(args[ArgVolume]))
    else if name == MethodRaiseVolume then Some(RaiseVolume(StepArg(args)))
    else if name == MethodLowerVolume then Some(LowerVolume(StepArg(args)))
    else None
  }

  /** The arguments a caller sends to request an operation. */
  function ArgsOf(op: CardOp): Args {
    match op
    case GetVolume => map[]
    case SetVolume(v) => map[ArgVolume := v]
    case RaiseVolume(s) => map[ArgStep := s]
    case LowerVolume(s) => map[ArgStep := s]
  }

  /** Every operation is selected by its own method name and arguments. */
  lemma DispatchRoundTrip(op: CardOp)
    ensures WellFormed(MethodOf(op), ArgsOf(op))
    ensures Dispatch(MethodOf(op), ArgsOf(op)) == Some(op)
  {
  }

  /** Raising or lowering without a step argument uses the default step of 0.15. */
  lemma DefaultStepWhenAbsent(args: Args)
    requires ArgStep !in args
    ensures Dispatch(MethodRaiseVolume, args) == Some(RaiseVolume(0.15))
    ensures Dispatch(MethodLowerVolume, args) == Some(LowerVolume(0.15))
  {
  }

  /** What `on_alsa_event` does with one card event. */
  datatype EventAction =
    | Dropped      // the stream is not listened to
    | LoggedOnly   // an error, disconnect or unhandled event is only logged
    | SendVolume   // the card's volume is read and sent on the event channel

  function EventActionOf(sendEvents: bool, event: AlsaEvent): (action: EventAction)
    ensures action == SendVolume <==> sendEvents && event == ValuesChanged
    ensures action == Dropped <==> !sendEvents
  {
    if !sendEvents then Dropped
    else
      match event
      case ValuesChanged => SendVolume
      case _ => LoggedOnly
  }

  /** The reply given to a method call. */
  datatype Response =
    | NullResponse         // no operation was selected
    | Reply(op: CardOp)    // the method handler's reply for the operation it ran

  /** The error returned when the event stream cannot be listened to. */
  datatype ListenError = RegisterListenerFailed

  class Plugin {
    var card: Card?
    var sendEvents: bool
    /** The values sent on the event channel, in order. */
    var sent: seq<real>
    /** The responses given on the method channel, in order. */
    var responses: seq<Response>

    /** `flutter_volume_controller_plugin_init`: `newCard` is what `alsa_card_new` returned for the default card. */
    constructor (newCard: Card?)
      ensures card == newCard && !sendEvents && sent == [] && responses == []
    {
      card := newCard;
      sendEvents := false;
      sent, responses := [], [];
    }

    /**
     * Without a card, returns before dispatching or responding. Otherwise runs
     * the selected operation on the card, if any, and responds once.
     */
    method HandleMethodCall(name: string, args: Args)
      requires card != null ==> WellFormed(name, args)
      modifies this`responses, card
      ensures card == null ==> responses == old(responses)
      ensures card != null ==>
                && card.handled == old(card.handled) + (match Dispatch(name, args) case Some(op) => [op] case None => [])
                && responses == old(responses) + [match Dispatch(name, args) case Some(op) => Reply(op) case None => NullResponse]
                && card.volume == old(card.volume) && card.watching == old(card.watching)
                && card.callbackInstalled == old(card.callbackInstalled) && card.freed == old(card.freed)
    {
      if card == null {
        return;
      }
      var response := NullResponse;
      if name == MethodGetVolume {
        card.Handle(GetVolume);
        response := Reply(GetVolume);
      } else if name == MethodSetVolume {
        var volume := args[ArgVolume];
        card.Handle(SetVolume(volume));
        response := Reply(SetVolume(volume));
      } else if name == MethodRaiseVolume {
        var step := if ArgStep in args then args[ArgStep] else 0.15;
        card.Handle(RaiseVolume(step));
        response := Reply(RaiseVolume(step));
      } else if name == MethodLowerVolume {
        var step := if ArgStep in args then args[ArgStep] else 0.15;
        card.Handle(LowerVolume(step));
        response := Reply(LowerVolume(step));
      }
      responses := responses + [response];
    }

    /** The installed card callback: only a values-changed event on a listened stream sends the card's volume. */
    method OnAlsaEvent(event: AlsaEvent)
      requires card != null
      modifies this`sent
      ensures sent == old(sent) + (if EventActionOf(sendEvents, event) == SendVolume then [card.volume] else [])
    {
      if !sendEvents {
        return;
      }
      match event {
        case ValuesChanged =>
          OnAlsaValuesChanged();
        case _ =>
      }
    }

    /** Reads the card's volume and sends it on the event channel. */
    method OnAlsaValuesChanged()
      requires card != null
      modifies this`sent
      ensures sent == old(sent) + [card.volume]
    {
      var volume := card.GetVolume();
      sent := sent + [volume];
    }

    /**
     * Starts listening: fails, leaving the flag alone, without a card or when
     * the card cannot be watched; otherwise installs the callback and then
     * sets the flag.
     */
    method EventListen() returns (error: Option<ListenError>)
      modifies this`sendEvents, card
      ensures card == null ==> error.Some? && sendEvents == old(sendEvents)
      ensures card != null ==>
                && (error.None? <==> card.canWatch)
                && card.handled == old(card.handled) && card.volume == old(card.volume) && card.freed == old(card.freed)
                && (error.Some? ==> sendEvents == old(sendEvents) && unchanged(card))
                && (error.None? ==> sendEvents && card.watching && card.callbackInstalled)
    {
      if card == null {
        return Some(RegisterListenerFailed);
      }
      var watched := card.AddWatch();
      if !watched {
        return Some(RegisterListenerFailed);
      }
      card.InstallCallback();
      sendEvents := true;
      return None;
    }

    /** Stops listening; never fails, and leaves the stream unlistened whatever the state before. */
    method EventCancel()
      modifies this`sendEvents, card
      ensures !sendEvents
      ensures card != null ==>
                && !card.watching
                && card.callbackInstalled == old(card.callbackInstalled) && card.handled == old(card.handled)
                && card.volume == old(card.volume) && card.freed == old(card.freed)
    {
      if card != null {
        card.RemoveWatch();
      }
      sendEvents := false;
    }

    /** `flutter_volume_controller_plugin_dispose`: frees the card; the handle itself is not cleared. */
    method Dispose()
      modifies card
      ensures card != null ==> card.freed
      ensures card != null ==> && card.volume == old(card.volume) && card.watching == old(card.watching)
                               && card.callbackInstalled == old(card.callbackInstalled) && card.handled == old(card.handled)
    {
      if card != null {
        card.Free();
      }
    }
  }

  /** After a cancel, a second cancel changes nothing and no event reaches the channel. */
  method CancelIsIdempotent(volume: real, canWatch: bool, event: AlsaEvent)
  {
    var card := new Card(volume, canWatch);
    var plugin := new Plugin(card);
    var error := plugin.EventListen();
    plugin.EventCancel();
    var watching, flag := card.watching, plugin.sendEvents;
    plugin.EventCancel();
    assert card.watching == watching && plugin.sendEvents == flag == false;
    var before := plugin.sent;
    plugin.OnAlsaEvent(event);
    assert plugin.sent == before;
  }
}
