/** The action values stored in layers. The manager never interprets them:
    it only clones and compares them, and builds `Tap(Key(code))` as the
    identity action of a key that no layer remaps. */
module Actions {
  import opened Keys

  /** What a simple action emits. Effects other than a plain key are opaque. */
  datatype Effect = Key(code: KeyCode) | OtherEffect(tag: nat)

  /** The actions the scenarios use, plus one opaque case for all the others
      (tap-dance, sticky, layer and profile switches, ...). */
  datatype Action =
    | Tap(effect: Effect)
    | TapHold(tap: Effect, hold: Effect)
    | OtherAction(tag: nat)

  /** The action a key has when no layer remaps it. */
  function IdentityAction(k: KeyCode): Action
  {
    Tap(Key(k))
  }
}
