/** Key codes: a finite set of physical key identifiers embedded in [0, MAX_KEY).
    Not every integer below MAX_KEY names a key; the gaps are the ranges of the
    source's MISSING_KEYCODES table (Linux input event codes without a key). */
module Keys {
  import opened Options

  /** Size of the dense merged view: one slot per integer below KEY_MAX. */
  const MAX_KEY: nat := 767

  /** True when `i` falls in one of the half-open ranges that have no key code. */
  predicate Missing(i: int)
  {
    || 84 <= i < 85
    || 195 <= i < 200
    || 249 <= i < 352
    || 443 <= i < 448
    || 452 <= i < 464
    || 485 <= i < 497
    || 507 <= i < 512
    || 543 <= i < 560
    || 562 <= i < 576
    || 585 <= i < 592
    || 594 <= i < 608
    || 633 <= i < 767
  }

  /** `KeyCode::try_from(i)` succeeds exactly for these integers. */
  predicate ValidCode(i: int)
  {
    0 <= i < MAX_KEY && !Missing(i)
  }

  /** A key code; its integer image is the slot it owns in the merged view. */
  type KeyCode = k: nat | k < MAX_KEY && !Missing(k) witness 0

  /** The key-code conversion `KeyCode::try_from`: partial on integers. */
  function TryFrom(i: int): (r: Option<KeyCode>)
    ensures r.Some? <==> ValidCode(i)
    ensures r.Some? ==> r.value == i
  {
    if ValidCode(i) then Some(i) else None
  }

  // Key codes used by the scenarios, numbered as Linux input event codes.
  const KEY_LEFTCTRL: KeyCode := 29
  const KEY_A: KeyCode := 30
  const KEY_S: KeyCode := 31
  const KEY_D: KeyCode := 32
  const KEY_H: KeyCode := 35
  const KEY_J: KeyCode := 36
  const KEY_K: KeyCode := 37
  const KEY_L: KeyCode := 38
  const KEY_LEFTSHIFT: KeyCode := 42
  const KEY_LEFTALT: KeyCode := 56
  const KEY_CAPSLOCK: KeyCode := 58
  const KEY_UP: KeyCode := 103
  const KEY_LEFT: KeyCode := 105
  const KEY_RIGHT: KeyCode := 106
  const KEY_DOWN: KeyCode := 108
}
