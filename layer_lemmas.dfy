/** Properties of the layer transitions in LayerSpec: what switching a layer
    does to each key, the no-op cases, idempotence, lock containment, when
    an on/off pair restores the stack and when it does not. */
module LayerLemmas {
  import opened Options
  import opened Keys
  import opened Actions
  import opened LayerSpec

  // ---------------- Construction and init ----------------

  /** `init` on a fresh manager turns layer 0 on and overlays its entries on
      the identity view: the equal-index rule lets layer 0 replace the
      identity defaults, which are also recorded at index 0. */
  lemma InitOverlaysBase(layers: seq<Layer>, locks: Locks)
    requires |layers| > 0 && locks.globalLock.None? && locks.keyLocks == map[]
    ensures var r := TurnOn(layers, locks, InitialStack(layers), 0);
            && r.states[0]
            && (forall i | 1 <= i < |r.states| :: !r.states[i])
            && forall k: KeyCode ::
                 r.merged[k] == Some(if k in layers[0] then MergedKey(k, layers[0][k], 0) else IdentityKey(k))
  {
  }

  // ---------------- What one switch does ----------------

  /** `turn_layer_on(i)` on an off layer whose change is safe: each key of
      the layer takes the layer's action exactly when `i` is at least its
      current winner's index; every other slot, and every other layer
      state, is unchanged. */
  lemma TurnOnUpdates(layers: seq<Layer>, locks: Locks, s: Stack, i: LayerIndex)
    requires StackValid(layers, s) && i < |layers|
    requires !s.states[i] && ChangeSafe(locks, layers[i])
    ensures var r := TurnOn(layers, locks, s, i);
            && r.states == s.states[i := true]
            && (forall k: KeyCode | k in layers[i] ::
                  r.merged[k] == if i >= s.merged[k].value.layerIndex
                                 then Some(MergedKey(k, layers[i][k], i)) else s.merged[k])
            && (forall j | 0 <= j < MAX_KEY && j !in layers[i] :: r.merged[j] == s.merged[j])
  {
  }

  /** With no lock held, turning an off layer on always applies it. */
  lemma TurnOnUnlocked(layers: seq<Layer>, s: Stack, i: LayerIndex)
    requires StackValid(layers, s) && i < |layers| && !s.states[i]
    ensures TurnOn(layers, NoLocks(), s, i) == Stack(MergedOn(s.merged, layers[i], i), s.states[i := true])
  {
  }

  /** With no lock held, turning an on layer other than the base off always applies it. */
  lemma TurnOffUnlocked(layers: seq<Layer>, s: Stack, i: LayerIndex)
    requires StackValid(layers, s) && 0 < i < |layers| && s.states[i]
    ensures TurnOff(layers, NoLocks(), s, i) == Stack(MergedOff(layers, s.merged, i), s.states[i := false])
  {
  }

  /** `turn_layer_off(i)` for `i > 0` on an on layer whose change is safe:
      each key of the layer takes the entry of the highest layer below its
      current winner that contains it, whether or not that layer is on, or
      the identity entry when there is none; every other slot is unchanged. */
  lemma TurnOffUpdates(layers: seq<Layer>, locks: Locks, s: Stack, i: LayerIndex)
    requires StackValid(layers, s) && 0 < i < |layers|
    requires s.states[i] && ChangeSafe(locks, layers[i])
    ensures var r := TurnOff(layers, locks, s, i);
            && r.states == s.states[i := false]
            && (forall k: KeyCode | k in layers[i] ::
                  var cur := s.merged[k].value.layerIndex;
                  var e := r.merged[k].value;
                  || (HighestBelow(layers, k, cur, e.layerIndex) && e == MergedKey(k, layers[e.layerIndex][k], e.layerIndex))
                  || (NoneBelow(layers, k, cur) && e == IdentityKey(k)))
            && (forall j | 0 <= j < MAX_KEY && j !in layers[i] :: r.merged[j] == s.merged[j])
  {
    var r := TurnOff(layers, locks, s, i);
    forall k: KeyCode | k in layers[i]
      ensures r.merged[k] == Some(Replacement(layers, k, s.merged[k].value.layerIndex))
    {
    }
  }

  /** Turning a layer on never lowers the winning index of a key, and turning
      one off never raises it. */
  lemma WinnerIndexMonotone(layers: seq<Layer>, locks: Locks, s: Stack, i: LayerIndex, k: KeyCode)
    requires StackValid(layers, s) && i < |layers|
    ensures TurnOn(layers, locks, s, i).merged[k].value.layerIndex >= s.merged[k].value.layerIndex
    ensures TurnOff(layers, locks, s, i).merged[k].value.layerIndex <= s.merged[k].value.layerIndex
  {
  }

  // ---------------- No-op cases ----------------

  /** Layer 0 can never be turned off. */
  lemma TurnOffBaseIsNoop(layers: seq<Layer>, locks: Locks, s: Stack)
    requires StackValid(layers, s)
    ensures TurnOff(layers, locks, s, 0) == s
  {
  }

  lemma TurnOnIdempotent(layers: seq<Layer>, locks: Locks, s: Stack, i: LayerIndex)
    requires StackValid(layers, s) && i < |layers|
    ensures TurnOn(layers, locks, TurnOn(layers, locks, s, i), i) == TurnOn(layers, locks, s, i)
  {
  }

  lemma TurnOffIdempotent(layers: seq<Layer>, locks: Locks, s: Stack, i: LayerIndex)
    requires StackValid(layers, s) && (i == 0 || i < |layers|)
    ensures TurnOff(layers, locks, TurnOff(layers, locks, s, i), i) == TurnOff(layers, locks, s, i)
  {
  }

  // ---------------- Locks ----------------

  /** While the global lock is held, no switch changes the stack. */
  lemma GlobalLockFreezesLayers(layers: seq<Layer>, locks: Locks, s: Stack, i: LayerIndex)
    requires StackValid(layers, s) && i < |layers| && locks.globalLock.Some?
    ensures TurnOn(layers, locks, s, i) == s
    ensures TurnOff(layers, locks, s, i) == s
    ensures Toggle(layers, locks, s, i) == s
  {
  }

  /** While key `k` is locked, no switch changes its slot: a layer that
      contains `k` is rejected as a whole, and any other layer leaves the
      slot alone. */
  lemma KeyLockFreezesKey(layers: seq<Layer>, locks: Locks, s: Stack, i: LayerIndex, k: KeyCode)
    requires StackValid(layers, s) && i < |layers| && k in locks.keyLocks
    ensures TurnOn(layers, locks, s, i).merged[k] == s.merged[k]
    ensures TurnOff(layers, locks, s, i).merged[k] == s.merged[k]
    ensures k in layers[i] ==> TurnOn(layers, locks, s, i) == s && TurnOff(layers, locks, s, i) == s
  {
  }

  lemma {:induction false} GlobalLockFreezesIndices(layers: seq<Layer>, locks: Locks, s: Stack,
                                                    indices: seq<LayerIndex>, on: bool)
    requires StackValid(layers, s) && locks.globalLock.Some?
    requires forall i | 0 <= i < |indices| :: IndexOk(layers, indices[i], on)
    ensures SetIndices(layers, locks, s, indices, on) == s
    decreases |indices|
  {
    if indices != [] {
      GlobalLockFreezesIndices(layers, locks, s, indices[..|indices| - 1], on);
    }
  }

  lemma {:induction false} GlobalLockFreezesAliases(layers: seq<Layer>, aliases: map<string, LayerIndex>,
                                                    locks: Locks, s: Stack, names: seq<string>, on: bool)
    requires StackValid(layers, s) && locks.globalLock.Some?
    requires forall i | 0 <= i < |names| :: AliasOk(layers, aliases, names[i], on)
    ensures SetAliases(layers, aliases, locks, s, names, on) == s
    decreases |names|
  {
    if names != [] {
      GlobalLockFreezesAliases(layers, aliases, locks, s, names[..|names| - 1], on);
    }
  }

  /** While the global lock is held, `toggle_profile` changes nothing. */
  lemma GlobalLockFreezesProfile(layers: seq<Layer>, aliases: map<string, LayerIndex>,
                                 profiles: map<string, Profile>, locks: Locks, s: Stack,
                                 name: string, on: bool)
    requires StackValid(layers, s) && locks.globalLock.Some?
    requires name in profiles ==> ProfileOk(layers, aliases, profiles[name], on)
    ensures ApplyProfile(layers, aliases, profiles, locks, s, name, on) == s
  {
    if name in profiles {
      var p := profiles[name];
      GlobalLockFreezesIndices(layers, locks, s, p.indices, on);
      GlobalLockFreezesAliases(layers, aliases, locks, s, p.aliases, on);
    }
  }

  lemma {:induction false} KeyLockFreezesIndices(layers: seq<Layer>, locks: Locks, s: Stack,
                                                 indices: seq<LayerIndex>, on: bool, k: KeyCode)
    requires StackValid(layers, s) && k in locks.keyLocks
    requires forall i | 0 <= i < |indices| :: IndexOk(layers, indices[i], on)
    ensures SetIndices(layers, locks, s, indices, on).merged[k] == s.merged[k]
    decreases |indices|
  {
    if indices != [] {
      var init := indices[..|indices| - 1];
      KeyLockFreezesIndices(layers, locks, s, init, on, k);
      var mid := SetIndices(layers, locks, s, init, on);
      var last := indices[|indices| - 1];
      if last < |layers| {
        KeyLockFreezesKey(layers, locks, mid, last, k);
      }
    }
  }

  lemma {:induction false} KeyLockFreezesAliases(layers: seq<Layer>, aliases: map<string, LayerIndex>,
                                                 locks: Locks, s: Stack, names: seq<string>, on: bool,
                                                 k: KeyCode)
    requires StackValid(layers, s) && k in locks.keyLocks
    requires forall i | 0 <= i < |names| :: AliasOk(layers, aliases, names[i], on)
    ensures SetAliases(layers, aliases, locks, s, names, on).merged[k] == s.merged[k]
    decreases |names|
  {
    if names != [] {
      var init := names[..|names| - 1];
      KeyLockFreezesAliases(layers, aliases, locks, s, init, on, k);
      var mid := SetAliases(layers, aliases, locks, s, init, on);
      var name := names[|names| - 1];
      if name in aliases && aliases[name] < |layers| {
        KeyLockFreezesKey(layers, locks, mid, aliases[name], k);
      }
    }
  }

  /** While key `k` is locked, `toggle_profile` leaves its slot unchanged,
      even though the profile may be applied only in part. */
  lemma KeyLockFreezesProfile(layers: seq<Layer>, aliases: map<string, LayerIndex>,
                              profiles: map<string, Profile>, locks: Locks, s: Stack,
                              name: string, on: bool, k: KeyCode)
    requires StackValid(layers, s) && k in locks.keyLocks
    requires name in profiles ==> ProfileOk(layers, aliases, profiles[name], on)
    ensures ApplyProfile(layers, aliases, profiles, locks, s, name, on).merged[k] == s.merged[k]
  {
    if name in profiles {
      var p := profiles[name];
      KeyLockFreezesIndices(layers, locks, s, p.indices, on, k);
      var mid := SetIndices(layers, locks, s, p.indices, on);
      KeyLockFreezesAliases(layers, aliases, locks, mid, p.aliases, on, k);
    }
  }

  // ---------------- On/off pairs ----------------

  /** Entry `e` of key `k` is what the replacement search below `top` finds:
      `e` comes from a layer below `top`, no layer strictly between them
      contains `k`, and an entry recorded at a layer that contains `k` holds
      that layer's action. */
  ghost predicate Settled(layers: seq<Layer>, k: KeyCode, e: MergedKey, top: LayerIndex)
    requires top <= |layers|
  {
    && e.layerIndex < top
    && (forall j :: e.layerIndex < j < top ==> k !in layers[j])
    && (k in layers[e.layerIndex] ==> e.action == layers[e.layerIndex][k])
  }

  lemma {:induction false} ReplacementOfSettled(layers: seq<Layer>, k: KeyCode, e: MergedKey, top: LayerIndex)
    requires top <= |layers| && Supplied(layers, k, e) && Settled(layers, k, e, top)
    ensures Replacement(layers, k, top) == e
    decreases top
  {
    if e.layerIndex < top - 1 {
      ReplacementOfSettled(layers, k, e, top - 1);
    }
  }

  /** Turning an off layer `L > 0` on and then off again restores the stack,
      provided every key of `L` is settled below `L`. */
  lemma OnThenOffRestores(layers: seq<Layer>, locks: Locks, s: Stack, L: LayerIndex)
    requires StackValid(layers, s) && 0 < L < |layers|
    requires !s.states[L] && ChangeSafe(locks, layers[L])
    requires forall k: KeyCode | k in layers[L] :: Settled(layers, k, s.merged[k].value, L)
    ensures TurnOff(layers, locks, TurnOn(layers, locks, s, L), L) == s
  {
    var on := TurnOn(layers, locks, s, L);
    var off := TurnOff(layers, locks, on, L);
    assert off.states == s.states;
    forall j | 0 <= j < |s.merged|
      ensures off.merged[j] == s.merged[j]
    {
      if j in layers[L] {
        ReplacementOfSettled(layers, j, s.merged[j].value, L);
      }
    }
  }

  /** Turning off an on layer `L` that is not the winner for one of its keys
      still rewrites that key: the replacement search starts below the
      higher winner, so the key drops to a strictly lower layer even though
      the winner is untouched. */
  lemma OffNonWinnerDemotes(layers: seq<Layer>, locks: Locks, s: Stack, L: LayerIndex, k: KeyCode)
    requires StackValid(layers, s) && 0 < L < |layers|
    requires s.states[L] && ChangeSafe(locks, layers[L])
    requires k in layers[L] && s.merged[k].value.layerIndex > L
    ensures var e := TurnOff(layers, locks, s, L).merged[k].value;
            e.layerIndex < s.merged[k].value.layerIndex && e != s.merged[k].value
  {
  }
}
