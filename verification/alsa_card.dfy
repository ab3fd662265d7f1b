/**
 * The ALSA mixer card the Linux plugin drives, as an abstract object: its
 * volume, whether its change watch and event callback are installed, the
 * card operations the method handler has run against it, and whether it has
 * been freed. Whether the watch can be installed is the card's failure
 * oracle. The card operations themselves (`get_volume`, `set_volume`,
 * `raise_volume`, `lower_volume` of the method handler) and their replies
 * are not part of this model; the card records which one was run.
 */
module AlsaCard {

  /** The events an ALSA card reports to its installed callback. */
  datatype AlsaEvent = CardError | CardDisconnected | ValuesChanged | Unhandled(code: int)

  /** One operation of the method handler on the card. */
  datatype CardOp = GetVolume | SetVolume(volume: real) | RaiseVolume(step: real) | LowerVolume(step: real)

  class Card {
    var volume: real
    var watching: bool
    var callbackInstalled: bool
    var handled: seq<CardOp>
    var freed: bool
    /** Whether `alsa_card_add_watch` succeeds on this card. */
    const canWatch: bool

    constructor (volume: real, canWatch: bool)
      ensures this.volume == volume && this.canWatch == canWatch
      ensures !watching && !callbackInstalled && handled == [] && !freed
    {
      this.volume := volume;
      this.canWatch := canWatch;
      watching, callbackInstalled, handled, freed := false, false, [], false;
    }

    /** `alsa_card_add_watch`. */
    method AddWatch() returns (ok: bool)
      modifies this`watching
      ensures ok == canWatch && watching == (old(watching) || canWatch)
    {
      ok := canWatch;
      if ok {
        watching := true;
      }
    }

    /** `alsa_card_remove_watch`. */
    method RemoveWatch()
      modifies this`watching
      ensures !watching
    {
      watching := false;
    }

    /** `alsa_card_install_callback`. */
    method InstallCallback()
      modifies this`callbackInstalled
      ensures callbackInstalled
    {
      callbackInstalled := true;
    }

    /** `alsa_card_get_volume`. */
    method GetVolume() returns (v: real)
      ensures v == volume
    {
      v := volume;
    }

    /** Runs one method-handler operation on the card. */
    method Handle(op: CardOp)
      modifies this`handled
      ensures handled == old(handled) + [op]
    {
      handled := handled + [op];
    }

    /** `alsa_card_free`. */
    method Free()
      modifies this`freed
      ensures freed
    {
      freed := true;
    }
  }
}
