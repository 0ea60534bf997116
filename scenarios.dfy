/** The source's regression tests, and a few more scenarios of the manager, as
    client methods proved against the contracts of LayersManager alone. */
module Scenarios {
  import opened Options
  import opened Keys
  import opened Actions
  import opened LayerSpec
  import opened LayerLemmas
  import opened Layers

  /** The three layers of `test_mgr`: CTRL and Caps Lock swapped, HJKL
      arrows, and tap-hold modifiers on A, S and D. */
  function MgrLayers(): seq<Layer>
  {
    [ map[KEY_LEFTCTRL := Tap(Key(KEY_CAPSLOCK)), KEY_CAPSLOCK := Tap(Key(KEY_LEFTCTRL))],
      map[KEY_H := Tap(Key(KEY_LEFT)), KEY_J := Tap(Key(KEY_DOWN)),
          KEY_K := Tap(Key(KEY_UP)), KEY_L := Tap(Key(KEY_RIGHT))],
      map[KEY_A := TapHold(Key(KEY_A), Key(KEY_LEFTCTRL)),
          KEY_S := TapHold(Key(KEY_S), Key(KEY_LEFTSHIFT)),
          KEY_D := TapHold(Key(KEY_D), Key(KEY_LEFTALT))] ]
  }

  function MgrAliases(): map<string, LayerIndex>
  {
    map["base" := 0, "arrows" := 1, "asdf" := 2]
  }

  /** The base layer's swap of CTRL and Caps Lock is in effect in `m`. */
  ghost predicate BaseAt(m: Merged)
    requires |m| == MAX_KEY
  {
    && m[KEY_LEFTCTRL] == Some(MergedKey(KEY_LEFTCTRL, Tap(Key(KEY_CAPSLOCK)), 0))
    && m[KEY_CAPSLOCK] == Some(MergedKey(KEY_CAPSLOCK, Tap(Key(KEY_LEFTCTRL)), 0))
  }

  /** HJKL are the arrows of layer 1 in `m` when `on`, their identity entries otherwise. */
  ghost predicate ArrowsAt(m: Merged, on: bool)
    requires |m| == MAX_KEY
  {
    if on then
      && m[KEY_H] == Some(MergedKey(KEY_H, Tap(Key(KEY_LEFT)), 1))
      && m[KEY_J] == Some(MergedKey(KEY_J, Tap(Key(KEY_DOWN)), 1))
      && m[KEY_K] == Some(MergedKey(KEY_K, Tap(Key(KEY_UP)), 1))
      && m[KEY_L] == Some(MergedKey(KEY_L, Tap(Key(KEY_RIGHT)), 1))
    else
      && m[KEY_H] == Some(IdentityKey(KEY_H)) && m[KEY_J] == Some(IdentityKey(KEY_J))
      && m[KEY_K] == Some(IdentityKey(KEY_K)) && m[KEY_L] == Some(IdentityKey(KEY_L))
  }

  /** A, S, D are the tap-holds of layer 2 in `m` when `on`, their identity entries otherwise. */
  ghost predicate ModsAt(m: Merged, on: bool)
    requires |m| == MAX_KEY
  {
    if on then
      && m[KEY_A] == Some(MergedKey(KEY_A, TapHold(Key(KEY_A), Key(KEY_LEFTCTRL)), 2))
      && m[KEY_S] == Some(MergedKey(KEY_S, TapHold(Key(KEY_S), Key(KEY_LEFTSHIFT)), 2))
      && m[KEY_D] == Some(MergedKey(KEY_D, TapHold(Key(KEY_D), Key(KEY_LEFTALT)), 2))
    else
      && m[KEY_A] == Some(IdentityKey(KEY_A)) && m[KEY_S] == Some(IdentityKey(KEY_S))
      && m[KEY_D] == Some(IdentityKey(KEY_D))
  }

  /** The merged view of the `test_mgr` layers with layer 1 (the arrows)
      on exactly when `arrows` and layer 2 (the modifiers) on exactly when `mods`. */
  ghost predicate ViewAt(m: Merged, arrows: bool, mods: bool)
  {
    |m| == MAX_KEY && BaseAt(m) && ArrowsAt(m, arrows) && ModsAt(m, mods)
  }

  /** Switching the base layer on over the identity view swaps CTRL and Caps Lock only. */
  lemma ViewInit()
    ensures ViewAt(MergedOn(InitialStack(MgrLayers()).merged, MgrLayers()[0], 0), false, false)
  {
  }

  /** Switching layer 1 on turns HJKL into arrows and leaves the other keys alone. */
  lemma ViewArrowsOn(m: Merged, mods: bool)
    requires ViewAt(m, false, mods)
    ensures ViewAt(MergedOn(m, MgrLayers()[1], 1), true, mods)
  {
  }

  /** Switching layer 2 on turns A, S, D into tap-holds and leaves the other keys alone. */
  lemma ViewModsOn(m: Merged, arrows: bool)
    requires ViewAt(m, arrows, false)
    ensures ViewAt(MergedOn(m, MgrLayers()[2], 2), arrows, true)
  {
  }

  /** Switching layer 1 off gives HJKL their identity entries back: no
      layer below 1 maps them. */
  lemma ViewArrowsOff(m: Merged, mods: bool)
    requires MergedValid(MgrLayers(), m) && ViewAt(m, true, mods)
    ensures ViewAt(MergedOff(MgrLayers(), m, 1), false, mods)
  {
  }

  /** Switching layer 2 off gives A, S, D their identity entries back: no
      layer below 2 maps them. */
  lemma ViewModsOff(m: Merged, arrows: bool)
    requires MergedValid(MgrLayers(), m) && ViewAt(m, arrows, true)
    ensures ViewAt(MergedOff(MgrLayers(), m, 2), arrows, false)
  {
  }

  /** The stack of a `test_mgr` manager with layers 1 and 2 on exactly
      when `arrows` and `mods`. */
  ghost predicate MgrAt(s: Stack, arrows: bool, mods: bool)
  {
    StackValid(MgrLayers(), s) && s.states == [true, arrows, mods] && ViewAt(s.merged, arrows, mods)
  }

  lemma MgrInit()
    ensures MgrAt(TurnOn(MgrLayers(), NoLocks(), InitialStack(MgrLayers()), 0), false, false)
  {
    var s := InitialStack(MgrLayers());
    assert s.states == [false, false, false];
    TurnOnUnlocked(MgrLayers(), s, 0);
    ViewInit();
    assert s.states[0 := true] == [true, false, false];
  }

  lemma MgrArrowsOn(s: Stack, mods: bool)
    requires MgrAt(s, false, mods)
    ensures MgrAt(TurnOn(MgrLayers(), NoLocks(), s, 1), true, mods)
  {
    TurnOnUnlocked(MgrLayers(), s, 1);
    ViewArrowsOn(s.merged, mods);
    assert s.states[1 := true] == [true, true, mods];
  }

  lemma MgrModsOn(s: Stack, arrows: bool)
    requires MgrAt(s, arrows, false)
    ensures MgrAt(TurnOn(MgrLayers(), NoLocks(), s, 2), arrows, true)
  {
    TurnOnUnlocked(MgrLayers(), s, 2);
    ViewModsOn(s.merged, arrows);
    assert s.states[2 := true] == [true, arrows, true];
  }

  lemma MgrArrowsOff(s: Stack, mods: bool)
    requires MgrAt(s, true, mods)
    ensures MgrAt(TurnOff(MgrLayers(), NoLocks(), s, 1), false, mods)
  {
    TurnOffUnlocked(MgrLayers(), s, 1);
    ViewArrowsOff(s.merged, mods);
    assert s.states[1 := false] == [true, false, mods];
  }

  lemma MgrModsOff(s: Stack, arrows: bool)
    requires MgrAt(s, arrows, true)
    ensures MgrAt(TurnOff(MgrLayers(), NoLocks(), s, 2), arrows, false)
  {
    TurnOffUnlocked(MgrLayers(), s, 2);
    ViewModsOff(s.merged, arrows);
    assert s.states[2 := false] == [true, arrows, false];
  }

  /** `mgr` runs the `test_mgr` layers and aliases and holds no lock. */
  ghost predicate MgrConfig(mgr: LayersManager)
    reads mgr, mgr.merged, mgr.layersStates
  {
    && mgr.Valid() && mgr.layers == MgrLayers() && mgr.layerAliases == MgrAliases()
    && mgr.keyLocks == map[] && mgr.globalLock == None
  }

  /** Construction and `init` with the `test_mgr` layers: three layer
      states, only the base on. */
  method MgrNew(profiles: map<string, Profile>) returns (mgr: LayersManager)
    ensures fresh(mgr) && fresh(mgr.merged) && fresh(mgr.layersStates)
    ensures MgrConfig(mgr) && mgr.layerProfiles == profiles && MgrAt(mgr.State(), false, false)
    ensures mgr.layersStates.Length == 3 && mgr.layersStates[0]
  {
    mgr := new LayersManager(MgrLayers(), MgrAliases(), profiles);
    mgr.Init();
    MgrInit();
  }

  /** `turn_layer_on(2)`: A, S, D become tap-holds. */
  method MgrModsOnStep(mgr: LayersManager, arrows: bool)
    requires MgrConfig(mgr) && MgrAt(mgr.State(), arrows, false)
    modifies mgr.merged, mgr.layersStates
    ensures MgrConfig(mgr) && MgrAt(mgr.State(), arrows, true)
  {
    ghost var s := mgr.State();
    mgr.TurnLayerOn(2);
    MgrModsOn(s, arrows);
  }

  /** `turn_layer_on(1)`: HJKL become arrows. */
  method MgrArrowsOnStep(mgr: LayersManager, mods: bool)
    requires MgrConfig(mgr) && MgrAt(mgr.State(), false, mods)
    modifies mgr.merged, mgr.layersStates
    ensures MgrConfig(mgr) && MgrAt(mgr.State(), true, mods)
  {
    ghost var s := mgr.State();
    mgr.TurnLayerOn(1);
    MgrArrowsOn(s, mods);
  }

  /** `turn_layer_off(2)`: A, S, D are plain again. */
  method MgrModsOffStep(mgr: LayersManager, arrows: bool)
    requires MgrConfig(mgr) && MgrAt(mgr.State(), arrows, true)
    modifies mgr.merged, mgr.layersStates
    ensures MgrConfig(mgr) && MgrAt(mgr.State(), arrows, false)
  {
    ghost var s := mgr.State();
    mgr.TurnLayerOff(2);
    MgrModsOff(s, arrows);
  }

  /** `toggle_layer(1)` flips the arrows layer. */
  method MgrArrowsToggleStep(mgr: LayersManager, arrows: bool, mods: bool)
    requires MgrConfig(mgr) && MgrAt(mgr.State(), arrows, mods)
    modifies mgr.merged, mgr.layersStates
    ensures MgrConfig(mgr) && MgrAt(mgr.State(), !arrows, mods)
  {
    ghost var s := mgr.State();
    mgr.ToggleLayer(1);
    if arrows {
      MgrArrowsOff(s, mods);
    } else {
      MgrArrowsOn(s, mods);
    }
  }

  /** Under the global lock `toggle_layer(1)` changes nothing; once the
      lock is released it flips the layer. */
  method MgrLockedToggleStep(mgr: LayersManager, arrows: bool, mods: bool)
    requires MgrConfig(mgr) && MgrAt(mgr.State(), arrows, mods)
    modifies mgr, mgr.merged, mgr.layersStates
    ensures MgrConfig(mgr) && MgrAt(mgr.State(), !arrows, mods)
  {
    mgr.LockAll(LkTapHold);
    ghost var s := mgr.State();
    mgr.ToggleLayer(1);
    GlobalLockFreezesLayers(MgrLayers(), mgr.LockState(), s, 1);
    assert mgr.State() == s;
    mgr.UnlockAll(LkTapHold);
    MgrArrowsToggleStep(mgr, arrows, mods);
  }

  /** `test_mgr`: layer 2 on, layer 1 on, layer 2 off, layer 1 toggled off
      and back on, then a toggle refused under the global lock and accepted
      after it is released. Each step's contract carries the test's
      assertions on the merged view. */
  method TestMgr() returns (mgr: LayersManager)
    ensures MgrConfig(mgr) && MgrAt(mgr.State(), false, false)
    ensures mgr.Get(KEY_H).action == Tap(Key(KEY_H))
  {
    mgr := MgrNew(map[]);
    MgrModsOnStep(mgr, false);
    MgrArrowsOnStep(mgr, true);
    MgrModsOffStep(mgr, true);
    MgrArrowsToggleStep(mgr, true, false);
    MgrArrowsToggleStep(mgr, false, false);
    MgrLockedToggleStep(mgr, true, false);
  }

  /** `test_overlapping_keys`: layer 1 repeats the base layer's entry for A,
      and switching it on and off keeps that action throughout. */
  method TestOverlappingKeys() returns (mgr: LayersManager)
    ensures mgr.Valid() && mgr.layersStates.Length == 2
    ensures mgr.layersStates[0] && !mgr.layersStates[1]
    ensures mgr.Get(KEY_A) == MergedKey(KEY_A, TapHold(Key(KEY_A), Key(KEY_LEFTSHIFT)), 0)
  {
    var entry := TapHold(Key(KEY_A), Key(KEY_LEFTSHIFT));
    mgr := new LayersManager([map[KEY_A := entry], map[KEY_A := entry]],
                             map["base" := 0, "arrows" := 1], map[]);
    mgr.Init();
    assert mgr.Get(KEY_A) == MergedKey(KEY_A, entry, 0);
    mgr.TurnLayerOn(1);
    assert mgr.Get(KEY_A) == MergedKey(KEY_A, entry, 1);
    mgr.TurnLayerOff(1);
  }

  /** Turning off a lower layer that is not the winner of K drops K to that
      lower layer's entry while the higher layer 2 is still on: the merged
      view then disagrees with "the highest active layer wins". */
  method OffLowerLayerDemotesWinner() returns (mgr: LayersManager)
    ensures mgr.Valid() && |mgr.layers| == 3
    ensures mgr.layersStates[2] && !mgr.layersStates[1]
    ensures KEY_K in mgr.layers[2]
    ensures mgr.Get(KEY_K) == MergedKey(KEY_K, Tap(Key(KEY_UP)), 1)
  {
    mgr := new LayersManager([map[], map[KEY_K := Tap(Key(KEY_UP))], map[KEY_K := Tap(Key(KEY_DOWN))]],
                             map[], map[]);
    mgr.Init();
    mgr.TurnLayerOn(2);
    assert mgr.Get(KEY_K) == MergedKey(KEY_K, Tap(Key(KEY_DOWN)), 2);
    mgr.TurnLayerOn(1);
    assert mgr.Get(KEY_K) == MergedKey(KEY_K, Tap(Key(KEY_DOWN)), 2);
    mgr.TurnLayerOff(1);
  }

  /** A layer that holds a locked key is refused until the key is unlocked. */
  method KeyLockBlocksLayer() returns (mgr: LayersManager)
    ensures mgr.Valid() && |mgr.layers| == 3 && mgr.layersStates[1]
    ensures mgr.keyLocks == map[]
    ensures mgr.Get(KEY_K).action == Tap(Key(KEY_UP))
  {
    mgr := new LayersManager(MgrLayers(), MgrAliases(), map[]);
    mgr.Init();
    mgr.LockKey(KEY_K, LkTapHold);
    mgr.TurnLayerOn(1);
    assert !mgr.layersStates[1] && mgr.Get(KEY_K).action == Tap(Key(KEY_K));
    mgr.UnlockKey(KEY_K, LkTapHold);
    mgr.TurnLayerOn(1);
  }

  function MgrProfiles(): map<string, Profile>
  {
    map["p" := Profile([1, 2], ["arrows"])]
  }

  /** Profile "p" switches layer 1, then layer 2, then the layer aliased
      "arrows" (layer 1 again). */
  lemma MgrProfileSteps(s: Stack, on: bool)
    requires StackValid(MgrLayers(), s)
    ensures ApplyProfile(MgrLayers(), MgrAliases(), MgrProfiles(), NoLocks(), s, "p", on)
         == SetLayer(MgrLayers(), NoLocks(),
              SetLayer(MgrLayers(), NoLocks(), SetLayer(MgrLayers(), NoLocks(), s, 1, on), 2, on), 1, on)
  {
    assert [1, 2][..1] == [1] && [1][..0] == [] && ["arrows"][..0] == [];
  }

  /** Profile "p" switched on from the base state: layers 1 and 2 come on,
      and the second switch of layer 1, through its alias, changes nothing. */
  lemma MgrProfileOn(s: Stack)
    requires MgrAt(s, false, false)
    ensures MgrAt(ApplyProfile(MgrLayers(), MgrAliases(), MgrProfiles(), NoLocks(), s, "p", true), true, true)
  {
    MgrProfileSteps(s, true);
    MgrArrowsOn(s, false);
    MgrModsOn(TurnOn(MgrLayers(), NoLocks(), s, 1), true);
  }

  /** Profile "p" switched off with layers 1 and 2 on: both go off, and the
      alias switch of layer 1 changes nothing. */
  lemma MgrProfileOff(s: Stack)
    requires MgrAt(s, true, true)
    ensures MgrAt(ApplyProfile(MgrLayers(), MgrAliases(), MgrProfiles(), NoLocks(), s, "p", false), false, false)
  {
    MgrProfileSteps(s, false);
    MgrArrowsOff(s, true);
    MgrModsOff(TurnOff(MgrLayers(), NoLocks(), s, 1), false);
  }

  /** `toggle_profile("p", true)` from the base state. */
  method MgrProfileOnStep(mgr: LayersManager)
    requires MgrConfig(mgr) && mgr.layerProfiles == MgrProfiles() && MgrAt(mgr.State(), false, false)
    modifies mgr.merged, mgr.layersStates
    ensures MgrConfig(mgr) && MgrAt(mgr.State(), true, true)
  {
    ghost var s := mgr.State();
    mgr.ToggleProfile("p", true);
    MgrProfileOn(s);
  }

  /** `toggle_profile("p", false)` with both of its layers on. */
  method MgrProfileOffStep(mgr: LayersManager)
    requires MgrConfig(mgr) && mgr.layerProfiles == MgrProfiles() && MgrAt(mgr.State(), true, true)
    modifies mgr.merged, mgr.layersStates
    ensures MgrConfig(mgr) && MgrAt(mgr.State(), false, false)
  {
    ghost var s := mgr.State();
    mgr.ToggleProfile("p", false);
    MgrProfileOff(s);
  }

  /** `toggle_profile` on profile "p": on, then an unknown profile, which
      changes nothing, then off. */
  method ProfileOnOff() returns (mgr: LayersManager)
    ensures MgrConfig(mgr) && MgrAt(mgr.State(), false, false)
  {
    mgr := MgrNew(MgrProfiles());
    MgrProfileOnStep(mgr);
    ghost var s := mgr.State();
    assert "missing" !in MgrProfiles();
    mgr.ToggleProfile("missing", true);
    assert mgr.State() == s;
    MgrProfileOffStep(mgr);
  }
}
