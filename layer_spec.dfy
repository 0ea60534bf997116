/** The layer stack as values: the merged view, the on/off state of each
    layer, the lock table, and the transitions `turn_layer_on`,
    `turn_layer_off`, `toggle_layer`, the alias operations and
    `toggle_profile` as functions of the old stack. The class in module
    Layers is proved to perform exactly these transitions in place. */
module LayerSpec {
  import opened Options
  import opened Keys
  import opened Actions

  type LayerIndex = nat

  /** One layer: a sparse map from key code to action. */
  type Layer = map<KeyCode, Action>

  /** The winning action for `code` and the index of the layer that supplied it. */
  datatype MergedKey = MergedKey(code: KeyCode, action: Action, layerIndex: LayerIndex)

  /** The dense merged view, indexed by the integer image of a key code;
      `None` for integers that are not key codes. */
  type Merged = seq<Option<MergedKey>>

  datatype LockOwner = LkTapHold | LkTapDance | LkSticky

  /** A named bundle of layers to switch on or off together. */
  datatype Profile = Profile(indices: seq<LayerIndex>, aliases: seq<string>)

  /** Per-key locks and the optional global lock. */
  datatype Locks = Locks(keyLocks: map<KeyCode, LockOwner>, globalLock: Option<LockOwner>)

  /** The mutable part of the manager: the merged view and the layer states. */
  datatype Stack = Stack(merged: Merged, states: seq<bool>)

  // ---------------- Merged entries ----------------

  /** The entry of a key that no layer remaps. */
  function IdentityKey(k: KeyCode): MergedKey
  {
    MergedKey(k, IdentityAction(k), 0)
  }

  /** Slot `i` of the merged view as construction leaves it. */
  function InitialEntry(i: int): Option<MergedKey>
  {
    if ValidCode(i) then Some(IdentityKey(i)) else None
  }

  /** Entry `e` sits in slot `k` and was supplied either by the identity
      default (at layer 0) or by the layer whose index it records. */
  ghost predicate Supplied(layers: seq<Layer>, k: int, e: MergedKey)
  {
    && e.code == k
    && (|| (e.layerIndex == 0 && e.action == IdentityAction(e.code))
        || (e.layerIndex < |layers| && e.code in layers[e.layerIndex]
            && e.action == layers[e.layerIndex][e.code]))
  }

  /** Slot `i` is filled exactly when `i` is a key code, with a supplied entry. */
  ghost predicate EntryValid(layers: seq<Layer>, i: int, e: Option<MergedKey>)
  {
    && (e.Some? <==> ValidCode(i))
    && (e.Some? ==> Supplied(layers, i, e.value))
  }

  /** The invariant of the merged view that every operation keeps. */
  ghost predicate MergedValid(layers: seq<Layer>, m: Merged)
  {
    |m| == MAX_KEY && forall i | 0 <= i < |m| :: EntryValid(layers, i, m[i])
  }

  ghost predicate StackValid(layers: seq<Layer>, s: Stack)
  {
    MergedValid(layers, s.merged) && |s.states| == |layers|
  }

  /** The stack right after construction: the identity view, every layer off. */
  function InitialStack(layers: seq<Layer>): (s: Stack)
    ensures StackValid(layers, s)
    ensures forall i | 0 <= i < |s.states| :: !s.states[i]
  {
    Stack(seq(MAX_KEY, i => InitialEntry(i)), seq(|layers|, _ => false))
  }

  // ---------------- Replacement search ----------------

  /** `j` is the largest index below `current` whose layer contains `code`. */
  ghost predicate HighestBelow(layers: seq<Layer>, code: KeyCode, current: nat, j: nat)
    requires current <= |layers|
  {
    && j < current
    && code in layers[j]
    && forall i :: j < i < current ==> code !in layers[i]
  }

  /** No layer below `current` contains `code`. */
  ghost predicate NoneBelow(layers: seq<Layer>, code: KeyCode, current: nat)
    requires current <= |layers|
  {
    forall i :: 0 <= i < current ==> code !in layers[i]
  }

  /** `get_replacement_merged_key`: the entry of the highest layer below
      `current` that contains `code`, whether that layer is on or off; the
      identity entry when there is none. */
  function Replacement(layers: seq<Layer>, code: KeyCode, current: LayerIndex): (r: MergedKey)
    requires current <= |layers|
    ensures || (HighestBelow(layers, code, current, r.layerIndex)
                && r == MergedKey(code, layers[r.layerIndex][code], r.layerIndex))
            || (NoneBelow(layers, code, current) && r == IdentityKey(code))
    ensures Supplied(layers, code, r)
    decreases current
  {
    if current == 0 then IdentityKey(code)
    else if code in layers[current - 1] then MergedKey(code, layers[current - 1][code], current - 1)
    else Replacement(layers, code, current - 1)
  }

  // ---------------- Per-key updates ----------------

  /** What `turn_layer_on(index)` does to slot `k`: a key of the layer is
      overwritten when `index` is at least the current winner's index. */
  function OnEntry(layer: Layer, index: LayerIndex, k: int, e: Option<MergedKey>): Option<MergedKey>
  {
    if k in layer && e.Some? && index >= e.value.layerIndex
    then Some(MergedKey(k, layer[k], index))
    else e
  }

  /** What `turn_layer_off(index)` does to slot `k`: a key of the layer gets
      the replacement found below its current winner. */
  function OffEntry(layers: seq<Layer>, index: LayerIndex, k: int, e: Option<MergedKey>): Option<MergedKey>
    requires index < |layers|
    requires e.Some? ==> e.value.layerIndex <= |layers|
  {
    if k in layers[index] && e.Some?
    then Some(Replacement(layers, k, e.value.layerIndex))
    else e
  }

  function MergedOn(m: Merged, layer: Layer, index: LayerIndex): Merged
  {
    seq(|m|, i requires 0 <= i < |m| => OnEntry(layer, index, i, m[i]))
  }

  function MergedOff(layers: seq<Layer>, m: Merged, index: LayerIndex): Merged
    requires index < |layers|
    requires MergedValid(layers, m)
  {
    seq(|m|, i requires 0 <= i < |m| => OffEntry(layers, index, i, m[i]))
  }

  // ---------------- Lock policy ----------------

  /** The lock table of a manager that holds no lock. */
  function NoLocks(): Locks
  {
    Locks(map[], None)
  }

  /** `is_layer_change_safe`: no global lock, and no key of the layer is locked. */
  predicate ChangeSafe(locks: Locks, layer: Layer)
  {
    locks.globalLock.None? && forall k :: k in layer ==> k !in locks.keyLocks
  }

  // ---------------- Layer transitions ----------------

  /** `turn_layer_on(index)`. */
  function TurnOn(layers: seq<Layer>, locks: Locks, s: Stack, index: LayerIndex): (r: Stack)
    requires StackValid(layers, s) && index < |layers|
    ensures StackValid(layers, r)
  {
    if !s.states[index] && ChangeSafe(locks, layers[index])
    then Stack(MergedOn(s.merged, layers[index], index), s.states[index := true])
    else s
  }

  /** `turn_layer_off(index)`; layer 0 is never turned off. */
  function TurnOff(layers: seq<Layer>, locks: Locks, s: Stack, index: LayerIndex): (r: Stack)
    requires StackValid(layers, s) && (index == 0 || index < |layers|)
    ensures StackValid(layers, r)
  {
    if index > 0 && s.states[index] && ChangeSafe(locks, layers[index])
    then Stack(MergedOff(layers, s.merged, index), s.states[index := false])
    else s
  }

  /** `toggle_layer(index)`. */
  function Toggle(layers: seq<Layer>, locks: Locks, s: Stack, index: LayerIndex): (r: Stack)
    requires StackValid(layers, s) && index < |layers|
    ensures StackValid(layers, r)
  {
    if s.states[index] then TurnOff(layers, locks, s, index) else TurnOn(layers, locks, s, index)
  }

  /** `index` can be passed to the on (or off) operation without a panic. */
  predicate IndexOk(layers: seq<Layer>, index: LayerIndex, on: bool)
  {
    if on then index < |layers| else index == 0 || index < |layers|
  }

  /** Turn layer `index` on when `on`, off otherwise. */
  function SetLayer(layers: seq<Layer>, locks: Locks, s: Stack, index: LayerIndex, on: bool): (r: Stack)
    requires StackValid(layers, s) && IndexOk(layers, index, on)
    ensures StackValid(layers, r)
  {
    if on then TurnOn(layers, locks, s, index) else TurnOff(layers, locks, s, index)
  }

  // ---------------- Aliases and profiles ----------------

  /** `get_idx_from_alias`. */
  function AliasIndex(aliases: map<string, LayerIndex>, name: string): (r: Option<LayerIndex>)
    ensures r.Some? <==> name in aliases
    ensures r.Some? ==> r.value == aliases[name]
  {
    if name in aliases then Some(aliases[name]) else None
  }

  /** A known alias names a layer that the on (or off) operation accepts. */
  predicate AliasOk(layers: seq<Layer>, aliases: map<string, LayerIndex>, name: string, on: bool)
  {
    name in aliases ==> IndexOk(layers, aliases[name], on)
  }

  /** `turn_alias_on(name)` when `on`, `turn_alias_off(name)` otherwise. */
  function SetAlias(layers: seq<Layer>, aliases: map<string, LayerIndex>, locks: Locks,
                    s: Stack, name: string, on: bool): (r: Stack)
    requires StackValid(layers, s) && AliasOk(layers, aliases, name, on)
    ensures StackValid(layers, r)
  {
    match AliasIndex(aliases, name)
    case Some(index) => SetLayer(layers, locks, s, index, on)
    case None => s
  }

  /** `toggle_layer_alias(name)`. */
  function ToggleAlias(layers: seq<Layer>, aliases: map<string, LayerIndex>, locks: Locks,
                       s: Stack, name: string): (r: Stack)
    requires StackValid(layers, s) && AliasOk(layers, aliases, name, true)
    ensures StackValid(layers, r)
  {
    match AliasIndex(aliases, name)
    case Some(index) => Toggle(layers, locks, s, index)
    case None => s
  }

  /** Every index and every known alias of `p` is accepted by the on (or off) operation. */
  predicate ProfileOk(layers: seq<Layer>, aliases: map<string, LayerIndex>, p: Profile, on: bool)
  {
    && (forall i | 0 <= i < |p.indices| :: IndexOk(layers, p.indices[i], on))
    && (forall i | 0 <= i < |p.aliases| :: AliasOk(layers, aliases, p.aliases[i], on))
  }

  /** Switch the layers `indices` one after the other, in order. */
  function SetIndices(layers: seq<Layer>, locks: Locks, s: Stack, indices: seq<LayerIndex>, on: bool): (r: Stack)
    requires StackValid(layers, s)
    requires forall i | 0 <= i < |indices| :: IndexOk(layers, indices[i], on)
    ensures StackValid(layers, r)
    decreases |indices|
  {
    if indices == [] then s
    else
      var init := indices[..|indices| - 1];
      SetLayer(layers, locks, SetIndices(layers, locks, s, init, on), indices[|indices| - 1], on)
  }

  /** Switch the layers named by `names` one after the other, in order. */
  function SetAliases(layers: seq<Layer>, aliases: map<string, LayerIndex>, locks: Locks,
                      s: Stack, names: seq<string>, on: bool): (r: Stack)
    requires StackValid(layers, s)
    requires forall i | 0 <= i < |names| :: AliasOk(layers, aliases, names[i], on)
    ensures StackValid(layers, r)
    decreases |names|
  {
    if names == [] then s
    else
      var init := names[..|names| - 1];
      SetAlias(layers, aliases, locks, SetAliases(layers, aliases, locks, s, init, on), names[|names| - 1], on)
  }

  /** `toggle_profile(name, on)`: the indices in order, then the aliases in order. */
  function ApplyProfile(layers: seq<Layer>, aliases: map<string, LayerIndex>, profiles: map<string, Profile>,
                        locks: Locks, s: Stack, name: string, on: bool): (r: Stack)
    requires StackValid(layers, s)
    requires name in profiles ==> ProfileOk(layers, aliases, profiles[name], on)
    ensures StackValid(layers, r)
  {
    if name in profiles then
      var p := profiles[name];
      SetAliases(layers, aliases, locks, SetIndices(layers, locks, s, p.indices, on), p.aliases, on)
    else s
  }
}
