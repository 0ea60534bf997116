# kanata layer stack manager, modelled in Dafny

kanata is a keyboard remapper. Module `src/layers.rs` keeps a stack of
layers. Each layer is a sparse map from key code to action. Layer 0 is the
base layer and is never turned off.

The manager keeps a dense *merged* view holding one slot per integer below
`MAX_KEY`. The slot of a key code holds the key's current entry: the action
and the index of the layer that supplied it.

Turning a layer on overwrites the entry of each of its keys. It does so
only when the layer's index is at least the index already recorded for
that key.

Turning a layer off replaces each of its keys. The replacement comes from
the highest layer *below the key's current winner* that maps the key. That
search ignores whether layers are on. When no such layer exists, the key
gets its identity action.

Per-key locks and one global lock, held by stateful actions (tap-hold,
tap-dance, sticky keys), can refuse a layer change. Aliases name layers.
Profiles switch several layers and aliases in turn.

The project has these modules:

- `Options`: the `Option` datatype.
- `Keys`: key codes as a subset type of the integers below `MAX_KEY` = 767 (`KEY_MAX` of the Linux input codes). It also models the conversion `KeyCode::try_from`.
- `Actions`: the part of `Action`/`Effect` that the model needs. That is `Tap(Key(code))`, which the layer code builds, and `TapHold`, which the tests use. Every other action is left abstract.
- `LayerSpec`: the state as values (merged view, layer states, locks). Every operation is a function of the old state.
- `LayerLemmas`: properties of those transitions.
- `Layers`: `init_merged` and the class `LayersManager`. The class keeps the merged view and the layer states in arrays that it updates in place, and the locks in fields. Each layer-changing method is proved to perform exactly the matching `LayerSpec` transition. The lock methods state their new lock fields. The queries state their results.
- `Scenarios`: the source's two unit tests, and three further scenarios, as client code of the class.

Switching a layer off does not always leave the highest active layer in
charge of a key. When the layer being switched off is not the key's current
winner, the replacement search starts below the higher winner. The key then
drops to a lower layer's entry while the higher layer is still on.
`LayerLemmas.OffNonWinnerDemotes` proves this for every such case, and
`Scenarios.OffLowerLayerDemotesWinner` shows it on three layers. The model
keeps this behaviour as the code has it.

For the same reason, turning a layer on and then off restores the stack
only under the condition of `LayerLemmas.OnThenOffRestores`. Each key of the
layer must have its winner below the layer, with no layer in between
mapping the key. Without that condition the pair can move a key. Take
layers `[{}, {K: UP}, {K: DOWN}]` with K won by layer 2 and layer 1 off.
Turning layer 1 on and then off leaves K at layer 1's entry.
`Scenarios.OffLowerLayerDemotesWinner` runs exactly this pair.

## Model

| member | source | states |
|---|---|---|
| Keys.TryFrom | src/layers.rs:90 | the conversion succeeds exactly for integers below `MAX_KEY` outside the missing-code ranges, and returns the same number |
| Layers.InitMerged | src/layers.rs:88-108 | exactly `MAX_KEY` slots; slot i is `(i, Tap(Key(i)), 0)` when i is a key code and `None` otherwise |
| LayerSpec.InitialStack | src/layers.rs:118-126 | the initial merged view satisfies the view invariant and every layer state is off |
| Layers.LayersManager.constructor | src/layers.rs:111-151 | the configuration is stored as given, the merged view is the identity view, every layer is off, no key lock and no global lock |
| Layers.LayersManager.LockKey | src/layers.rs:155-158 | requires the key unlocked; maps it to the owner, every other key lock and the global lock unchanged |
| Layers.LayersManager.UnlockKey | src/layers.rs:160-163 | requires the key locked by exactly that owner; removes only that key |
| Layers.LayersManager.LockAll | src/layers.rs:165-168 | requires no global lock; sets it to the owner, after which `is_all_locked` holds |
| Layers.LayersManager.UnlockAll | src/layers.rs:170-177 | requires a global lock; clears it whatever the owner argument, after which `is_all_locked` is false |
| Layers.LayersManager.IsAllLocked | src/layers.rs:175-177 | true iff a global lock is held, which is exactly when even a layer without keys may not change |
| Layers.LayersManager.IsOverridingKey | src/layers.rs:190-197 | the candidate index is at least the key's current index, which is exactly when the per-key rule of switching a layer on overwrites the slot |
| Layers.LayersManager.Get | src/layers.rs:239-244 | the entry of a key carries that key's code and was supplied by the identity default at layer 0 or by the layer whose index it records |
| LayerSpec.Replacement | src/layers.rs:199-222 | the entry of the highest layer below `current` that maps the code, whether on or off; otherwise the identity entry at layer 0 |
| Layers.LayersManager.GetReplacementMergedKey | src/layers.rs:199-222 | the descending scan returns exactly `Replacement` below the key's current winner |
| Layers.LayersManager.WillLayerOverrideHeldLock | src/layers.rs:246-255 | `None` iff no key of the layer is locked; a returned key is in the layer and locked |
| Layers.LayersManager.IsLayerChangeSafe | src/layers.rs:257-272 | safe iff there is no global lock and no key of the layer is locked |
| LayerSpec.TurnOn | src/layers.rs:274-302 | switching a layer on keeps the view invariant: filled slots stay filled, each entry keeps its code and a supplied action |
| LayerSpec.TurnOff | src/layers.rs:304-324 | switching a layer off keeps the view invariant; its indexing of lower layers stays in bounds |
| Layers.LayersManager.Init | src/layers.rs:186-188 | performs `TurnOn` of layer 0 on the stored state |
| Layers.LayersManager.TurnLayerOn | src/layers.rs:274-302 | the in-place loop over the layer's keys performs exactly `TurnOn` on the old state and keeps the invariant |
| Layers.LayersManager.TurnLayerOff | src/layers.rs:304-324 | the in-place loop performs exactly `TurnOff` on the old state and keeps the invariant |
| LayerSpec.Toggle | src/layers.rs:326-334 | toggling keeps the view invariant |
| Layers.LayersManager.ToggleLayer | src/layers.rs:326-334 | performs `TurnOff` when the layer is on and `TurnOn` when it is off |
| LayerSpec.AliasIndex | src/layers.rs:381-383 | an alias resolves iff it is known, to the index it names |
| LayerSpec.SetLayer | src/layers.rs:344-355 | switching one layer on or off keeps the view invariant |
| LayerSpec.SetAlias | src/layers.rs:344-355 | switching a layer by alias keeps the view invariant |
| LayerSpec.ToggleAlias | src/layers.rs:336-342 | toggling by alias keeps the view invariant |
| Layers.LayersManager.ToggleLayerAlias | src/layers.rs:336-342 | an unknown alias changes nothing; a known one toggles the layer it names |
| Layers.LayersManager.TurnAliasOn | src/layers.rs:344-348 | an unknown alias changes nothing; a known one turns its layer on |
| Layers.LayersManager.TurnAliasOff | src/layers.rs:350-355 | an unknown alias changes nothing; a known one turns its layer off |
| LayerSpec.SetIndices | src/layers.rs:361-371 | switching a sequence of layers in order keeps the view invariant |
| LayerSpec.SetAliases | src/layers.rs:365-374 | switching a sequence of aliases in order keeps the view invariant |
| LayerSpec.ApplyProfile | src/layers.rs:357-379 | applying a profile keeps the view invariant |
| Layers.LayersManager.ToggleProfile | src/layers.rs:357-379 | an unknown profile changes nothing; a known one switches its indices in order and then its aliases in order |
| LayerLemmas.InitOverlaysBase | src/layers.rs:186-188 | after `init` only layer 0 is on; each key it maps has its entry at index 0, and every other key keeps its identity entry |
| LayerLemmas.TurnOnUpdates | src/layers.rs:274-296 | on a safe change of an off layer, each of its keys takes its action iff the index is at least the key's winner; other slots and layer states unchanged |
| LayerLemmas.TurnOnUnlocked | src/layers.rs:257-279 | with no lock held, turning an off layer on always applies it |
| LayerLemmas.TurnOffUnlocked | src/layers.rs:304-318 | with no lock held, turning an on layer other than 0 off always applies it |
| LayerLemmas.TurnOffUpdates | src/layers.rs:304-317 | on a safe change, each key of the layer gets the highest lower layer's entry below its old winner, or the identity entry; other slots unchanged |
| LayerLemmas.WinnerIndexMonotone | src/layers.rs:190-222 | switching on never lowers a key's winning index; switching off never raises it |
| LayerLemmas.TurnOffBaseIsNoop | src/layers.rs:304-305 | layer 0 can never be turned off |
| LayerLemmas.TurnOnIdempotent | src/layers.rs:274-275 | turning a layer on twice equals turning it on once |
| LayerLemmas.TurnOffIdempotent | src/layers.rs:304-306 | turning a layer off twice equals turning it off once |
| LayerLemmas.GlobalLockFreezesLayers | src/layers.rs:257-264 | under the global lock, on, off and toggle change nothing |
| LayerLemmas.KeyLockFreezesKey | src/layers.rs:266-269 | a locked key's entry is never changed by a switch, and a layer holding it is not switched at all |
| LayerLemmas.GlobalLockFreezesIndices | src/layers.rs:361-371 | under the global lock, switching any sequence of layers changes nothing |
| LayerLemmas.GlobalLockFreezesAliases | src/layers.rs:365-374 | under the global lock, switching any sequence of aliases changes nothing |
| LayerLemmas.GlobalLockFreezesProfile | src/layers.rs:357-379 | under the global lock, a profile changes nothing |
| LayerLemmas.KeyLockFreezesIndices | src/layers.rs:361-371 | a locked key's entry survives any sequence of layer switches |
| LayerLemmas.KeyLockFreezesAliases | src/layers.rs:365-374 | a locked key's entry survives any sequence of alias switches |
| LayerLemmas.KeyLockFreezesProfile | src/layers.rs:357-379 | a locked key's entry survives any profile |
| LayerLemmas.ReplacementOfSettled | src/layers.rs:199-222 | the replacement search finds an entry when no layer between it and the start of the search maps the key |
| LayerLemmas.OnThenOffRestores | src/layers.rs:274-324 | turning an off layer on and then off restores the stack, when each of its keys' winners sits below it with no layer in between mapping the key |
| LayerLemmas.OffNonWinnerDemotes | src/layers.rs:199-222 | turning off a layer that is not a key's winner still lowers that key's winning index and changes its entry |
| Scenarios.ViewInit | src/layers.rs:440-444 | `init` leaves the `test_mgr` view with CTRL and Caps Lock swapped, HJKL and A, S, D plain |
| Scenarios.ViewArrowsOn | src/layers.rs:446-453 | switching the arrows layer on turns HJKL into arrows and leaves the other keys alone |
| Scenarios.ViewModsOn | src/layers.rs:455-461 | switching the modifiers layer on turns A, S, D into tap-holds and leaves the other keys alone |
| Scenarios.ViewArrowsOff | src/layers.rs:517-525 | switching the arrows layer off gives back the identity actions of HJKL |
| Scenarios.ViewModsOff | src/layers.rs:507-515 | switching the modifiers layer off gives back the identity actions of A, S, D |
| Scenarios.MgrInit | src/layers.rs:464-467 | after `init` only the base layer of three is on and the view is the base view |
| Scenarios.MgrArrowsOn | src/layers.rs:488-505 | `turn_layer_on(1)` from a view with the arrows off takes the view to the arrows on, states updated |
| Scenarios.MgrModsOn | src/layers.rs:469-486 | `turn_layer_on(2)` takes the view to the modifiers on |
| Scenarios.MgrArrowsOff | src/layers.rs:517-525 | `turn_layer_off(1)` takes the view to the arrows off |
| Scenarios.MgrModsOff | src/layers.rs:507-515 | `turn_layer_off(2)` takes the view to the modifiers off |
| Scenarios.MgrNew | src/layers.rs:464-467 | a fresh `test_mgr` manager after `init`: three layer states, the first on, the base view |
| Scenarios.MgrModsOnStep | src/layers.rs:469-486 | the test's assertions after `turn_layer_on(2)` |
| Scenarios.MgrArrowsOnStep | src/layers.rs:488-505 | the test's assertions after `turn_layer_on(1)` |
| Scenarios.MgrModsOffStep | src/layers.rs:507-515 | the test's assertions after `turn_layer_off(2)` |
| Scenarios.MgrArrowsToggleStep | src/layers.rs:517-535 | the test's assertions after each `toggle_layer(1)` |
| Scenarios.MgrLockedToggleStep | src/layers.rs:537-542 | under the global lock `toggle_layer(1)` changes nothing; after `unlock_all` it flips the layer |
| Scenarios.TestMgr | src/layers.rs:432-543 | the whole of `test_mgr` ends in the base view with H plain |
| Scenarios.TestOverlappingKeys | src/layers.rs:546-580 | with the same entry for A in layers 0 and 1, `init` gives A layer 0's entry at index 0, and on and off of layer 1 keep A's action |
| Scenarios.OffLowerLayerDemotesWinner | src/layers.rs:304-315 | with K in layers 1 and 2, turning off layer 1 while 2 is on leaves K at layer 1's action |
| Scenarios.KeyLockBlocksLayer | src/layers.rs:266-279 | a locked key blocks its layer; after unlocking, the layer switches on |
| Scenarios.MgrProfileSteps | src/layers.rs:357-379 | a profile with indices `[1, 2]` and alias `arrows` is three layer switches in that order |
| Scenarios.MgrProfileOn | src/layers.rs:361-367 | the profile switched on from the base view turns both layers on; the alias switch after it changes nothing |
| Scenarios.MgrProfileOff | src/layers.rs:368-374 | the profile switched off turns both layers off; the alias switch after it changes nothing |
| Scenarios.MgrProfileOnStep | src/layers.rs:357-367 | `toggle_profile("p", true)` on the manager takes it to both layers on |
| Scenarios.MgrProfileOffStep | src/layers.rs:368-379 | `toggle_profile("p", false)` on the manager takes it back to the base view |
| Scenarios.ProfileOnOff | src/layers.rs:357-379 | a profile on, an unknown profile (no change), then the profile off, ends in the base view |

## Left out

- The `notify` feature: the zmq socket that `new` creates and binds (src/layers.rs:128-136) and `send_notification` (src/layers.rs:224-237). This is network I/O. Without it `new` cannot fail, so the constructor returns the manager directly instead of a `Result`.
- Logging (`warn!`, `debug!`, `info!`) is a side effect only. The model keeps only the fact that a refused change returns without changing state.
- `serde` deserialisation of `Profile`, and `HashMap` hashing and iteration order. Layers are Dafny maps. The loops take the keys of a layer in an arbitrary order, and the proofs hold for every order.
- The real `KeyCode` enum lives in `crate::keys`, which is not part of this model. Validity is the missing-code table of the tests (src/layers.rs:394-420) together with `MAX_KEY` = 767.
- The contents of `Action` and `Effect` (`crate::actions`, `crate::effects`) are not part of this model. Only `Tap(Key(code))` and `TapHold` are spelled out; every other action is an abstract tag.
- `Cfg::new` (`crate::cfg`) is used only by the tests. The scenarios build the layer tables directly.
- `is_key_locked` (src/layers.rs:179-183) is a test-only accessor, so it is not modelled. Key locks are read directly from the `keyLocks` field.
- Panics and failed asserts are not behaviour in this model. They become preconditions:
  - `layers_states[index]` out of range;
  - `get` on a slot without a key;
  - the lock asserts;
  - `init` on an empty layer list.
- The `None`-slot panic of `get` cannot happen, because the type of the key rules it out, so the model of `get` has no error path.
- The view invariant says a winning index is below the number of layers, *or* is 0 with the identity action. The second case covers a manager with no layers before `init`, where the source's index 0 is also out of range.
