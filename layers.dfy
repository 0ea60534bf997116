/** The layer stack manager: a dense merged view updated in place as layers
    are switched on and off over fixed layer tables, guarded by per-key locks
    and one global lock. Every state-changing method is proved to perform the
    matching transition of module LayerSpec. */
module Layers {
  import opened Options
  import opened Keys
  import opened Actions
  import opened LayerSpec

  /** `init_merged`: one slot per integer below MAX_KEY, pushed in order; a
      key code gets its identity entry at layer 0, any other integer `None`. */
  method InitMerged() returns (merged: Merged)
    ensures |merged| == MAX_KEY
    ensures forall i | 0 <= i < MAX_KEY ::
              merged[i] == if ValidCode(i) then Some(MergedKey(i, Tap(Key(i)), 0)) else None
  {
    merged := [];
    for i := 0 to MAX_KEY
      invariant |merged| == i
      invariant forall j | 0 <= j < i ::
                  merged[j] == if ValidCode(j) then Some(MergedKey(j, Tap(Key(j)), 0)) else None
    {
      match TryFrom(i)
      case Some(code) =>
        merged := merged + [Some(MergedKey(code, Tap(Key(code)), 0))];
      case None =>
        merged := merged + [None];
    }
  }

  class LayersManager {
    /** Cache of the result of stacking all the layers on top of each other. */
    const merged: array<Option<MergedKey>>
    /** The user's layer configuration, read-only; layer 0 is the base. */
    const layers: seq<Layer>
    const layerAliases: map<string, LayerIndex>
    const layerProfiles: map<string, Profile>
    /** The on/off state of each layer. */
    const layersStates: array<bool>
    /** Keys that stateful actions have locked against layer changes. */
    var keyLocks: map<KeyCode, LockOwner>
    /** A lock against every layer change. */
    var globalLock: Option<LockOwner>

    ghost predicate Valid()
      reads merged, layersStates
    {
      && merged.Length == MAX_KEY
      && layersStates.Length == |layers|
      && MergedValid(layers, merged[..])
    }

    /** The merged view and the layer states, as values. */
    ghost function State(): Stack
      reads merged, layersStates
    {
      Stack(merged[..], layersStates[..])
    }

    function LockState(): Locks
      reads this
    {
      Locks(keyLocks, globalLock)
    }

    /** `new`: the identity merged view, every layer off, no locks. */
    constructor (layers: seq<Layer>, layerAliases: map<string, LayerIndex>,
                 layerProfiles: map<string, Profile>)
      ensures Valid()
      ensures this.layers == layers && this.layerAliases == layerAliases
      ensures this.layerProfiles == layerProfiles
      ensures State() == InitialStack(layers)
      ensures keyLocks == map[] && globalLock == None
      ensures fresh(merged) && fresh(layersStates)
    {
      var m := InitMerged();
      this.merged := new Option<MergedKey>[MAX_KEY](i requires 0 <= i < MAX_KEY => m[i]);
      this.layers := layers;
      this.layerAliases := layerAliases;
      this.layerProfiles := layerProfiles;
      this.layersStates := new bool[|layers|](_ => false);
      this.keyLocks := map[];
      this.globalLock := None;
      new;
      assert merged[..] == InitialStack(layers).merged;
      assert layersStates[..] == InitialStack(layers).states;
    }

    // ---------------- Locks ----------------

    method LockKey(key: KeyCode, owner: LockOwner)
      requires key !in keyLocks
      modifies this
      ensures keyLocks == old(keyLocks)[key := owner]
      ensures globalLock == old(globalLock)
    {
      keyLocks := keyLocks[key := owner];
    }

    method UnlockKey(key: KeyCode, owner: LockOwner)
      requires key in keyLocks && keyLocks[key] == owner
      modifies this
      ensures keyLocks == old(keyLocks) - {key}
      ensures globalLock == old(globalLock)
    {
      keyLocks := keyLocks - {key};
    }

    method LockAll(owner: LockOwner)
      requires globalLock.None?
      modifies this
      ensures globalLock == Some(owner) && IsAllLocked()
      ensures keyLocks == old(keyLocks)
    {
      globalLock := Some(owner);
    }

    /** Clears the global lock whoever holds it; `owner` is not checked. */
    method UnlockAll(owner: LockOwner)
      requires globalLock.Some?
      modifies this
      ensures globalLock == None && !IsAllLocked()
      ensures keyLocks == old(keyLocks)
    {
      globalLock := None;
    }

    /** A global lock is held: exactly the lock state in which even a layer
        without keys may not change. */
    function IsAllLocked(): (locked: bool)
      reads this
      ensures locked <==> !ChangeSafe(LockState(), map[])
    {
      globalLock.Some?
    }

    // ---------------- Queries ----------------

    /** The current winning entry of `key`; always present for a key code. */
    function Get(key: KeyCode): (m: MergedKey)
      reads merged, layersStates
      requires Valid()
      ensures m.code == key
      ensures Supplied(layers, key, m)
    {
      merged[key].value
    }

    /** A layer at `candidateLayerIndex` may overwrite the current entry of
        `candidateCode`: exactly when the per-key rule of switching a layer
        on replaces that slot with the layer's action. */
    function IsOverridingKey(candidateCode: KeyCode, candidateLayerIndex: LayerIndex): (overriding: bool)
      reads merged, layersStates
      requires Valid()
      ensures overriding <==> candidateLayerIndex >= Get(candidateCode).layerIndex
      ensures forall a: Action ::
                OnEntry(map[candidateCode := a], candidateLayerIndex, candidateCode, merged[candidateCode])
                == if overriding then Some(MergedKey(candidateCode, a, candidateLayerIndex)) else merged[candidateCode]
    {
      candidateLayerIndex >= Get(candidateCode).layerIndex
    }

    /** Scans the layers below the current winner of `removedCode`, from the
        top down, and returns the entry of the first one containing it. */
    method GetReplacementMergedKey(removedCode: KeyCode) returns (r: MergedKey)
      requires Valid()
      ensures r == Replacement(layers, removedCode, Get(removedCode).layerIndex)
    {
      var current := Get(removedCode).layerIndex;
      var i := current;
      while i > 0
        invariant 0 <= i <= current
        invariant Replacement(layers, removedCode, i) == Replacement(layers, removedCode, current)
      {
        i := i - 1;
        if removedCode in layers[i] {
          return MergedKey(removedCode, layers[i][removedCode], i);
        }
      }
      return MergedKey(removedCode, Tap(Key(removedCode)), 0);
    }

    /** Some key of `layer` that is locked, or `None` when there is none. */
    method WillLayerOverrideHeldLock(layer: Layer) returns (locked: Option<KeyCode>)
      ensures locked.None? <==> forall k :: k in layer ==> k !in keyLocks
      ensures locked.Some? ==> locked.value in layer && locked.value in keyLocks
    {
      var todo := layer.Keys;
      while todo != {}
        invariant todo <= layer.Keys
        invariant forall k :: k in layer && k !in todo ==> k !in keyLocks
        decreases todo
      {
        var key :| key in todo;
        if key in keyLocks {
          return Some(key);
        }
        todo := todo - {key};
      }
      return None;
    }

    /** A change of layer `index` is refused under the global lock, or when
        the layer holds a locked key. */
    method IsLayerChangeSafe(index: LayerIndex, layer: Layer) returns (safe: bool)
      ensures safe <==> globalLock.None? && forall k :: k in layer ==> k !in keyLocks
    {
      if IsAllLocked() {
        return false;
      }
      var locked := WillLayerOverrideHeldLock(layer);
      if locked.Some? {
        return false;
      }
      return true;
    }

    // ---------------- Layer changes ----------------

    method Init()
      requires Valid() && |layers| > 0
      modifies merged, layersStates
      ensures Valid()
      ensures State() == TurnOn(layers, LockState(), old(State()), 0)
    {
      TurnLayerOn(0);
    }

    method TurnLayerOn(index: LayerIndex)
      requires Valid() && index < |layers|
      modifies merged, layersStates
      ensures Valid()
      ensures State() == TurnOn(layers, LockState(), old(State()), index)
    {
      if !layersStates[index] {
        var layer := layers[index];
        var safe := IsLayerChangeSafe(index, layer);
        if !safe {
          return;
        }
        ghost var before := merged[..];
        var todo := layer.Keys;
        while todo != {}
          invariant todo <= layer.Keys
          invariant Valid()
          invariant layersStates[..] == old(layersStates[..])
          invariant forall j | 0 <= j < MAX_KEY ::
                      merged[j] == if j in layer && j !in todo then OnEntry(layer, index, j, before[j]) else before[j]
          decreases todo
        {
          var code :| code in todo;
          var isOverriding := IsOverridingKey(code, index);
          if isOverriding {
            merged[code] := Some(MergedKey(code, layer[code], index));
          }
          todo := todo - {code};
        }
        layersStates[index] := true;
        assert merged[..] == MergedOn(before, layer, index);
      }
    }

    method TurnLayerOff(index: LayerIndex)
      requires Valid() && (index == 0 || index < |layers|)
      modifies merged, layersStates
      ensures Valid()
      ensures State() == TurnOff(layers, LockState(), old(State()), index)
    {
      if index > 0 {
        if layersStates[index] {
          var layer := layers[index];
          var safe := IsLayerChangeSafe(index, layer);
          if !safe {
            return;
          }
          ghost var before := merged[..];
          var todo := layer.Keys;
          while todo != {}
            invariant todo <= layer.Keys
            invariant Valid()
            invariant layersStates[..] == old(layersStates[..])
            invariant forall j | 0 <= j < MAX_KEY ::
                        merged[j] == if j in layer && j !in todo then OffEntry(layers, index, j, before[j]) else before[j]
            decreases todo
          {
            var code :| code in todo;
            var replacementEntry := GetReplacementMergedKey(code);
            merged[code] := Some(replacementEntry);
            todo := todo - {code};
          }
          layersStates[index] := false;
          assert merged[..] == MergedOff(layers, before, index);
        }
      }
    }

    method ToggleLayer(index: LayerIndex)
      requires Valid() && index < |layers|
      modifies merged, layersStates
      ensures Valid()
      ensures State() == Toggle(layers, LockState(), old(State()), index)
    {
      var isLayerOn := layersStates[index];
      if isLayerOn {
        TurnLayerOff(index);
      } else {
        TurnLayerOn(index);
      }
    }

    // ---------------- Aliases and profiles ----------------

    method ToggleLayerAlias(name: string)
      requires Valid() && AliasOk(layers, layerAliases, name, true)
      modifies merged, layersStates
      ensures Valid()
      ensures State() == ToggleAlias(layers, layerAliases, LockState(), old(State()), name)
    {
      match AliasIndex(layerAliases, name)
      case Some(idx) => ToggleLayer(idx);
      case None =>
    }

    method TurnAliasOn(name: string)
      requires Valid() && AliasOk(layers, layerAliases, name, true)
      modifies merged, layersStates
      ensures Valid()
      ensures State() == SetAlias(layers, layerAliases, LockState(), old(State()), name, true)
    {
      match AliasIndex(layerAliases, name)
      case Some(idx) => TurnLayerOn(idx);
      case None =>
    }

    method TurnAliasOff(name: string)
      requires Valid() && AliasOk(layers, layerAliases, name, false)
      modifies merged, layersStates
      ensures Valid()
      ensures State() == SetAlias(layers, layerAliases, LockState(), old(State()), name, false)
    {
      match AliasIndex(layerAliases, name)
      case Some(idx) => TurnLayerOff(idx);
      case None =>
    }

    /** Switches the profile's layers one by one: first its indices, then its
        aliases, each in the order given. A lock can refuse some of them. */
    method ToggleProfile(name: string, on: bool)
      requires Valid()
      requires name in layerProfiles ==> ProfileOk(layers, layerAliases, layerProfiles[name], on)
      modifies merged, layersStates
      ensures Valid()
      ensures State() == ApplyProfile(layers, layerAliases, layerProfiles, LockState(), old(State()), name, on)
    {
      if name in layerProfiles {
        var profile := layerProfiles[name];
        ghost var start := State();
        ghost var mid: Stack;
        if on {
          for i := 0 to |profile.indices|
            invariant Valid()
            invariant State() == SetIndices(layers, LockState(), start, profile.indices[..i], true)
          {
            assert profile.indices[..i + 1][..i] == profile.indices[..i];
            TurnLayerOn(profile.indices[i]);
          }
          mid := State();
          for i := 0 to |profile.aliases|
            invariant Valid()
            invariant State() == SetAliases(layers, layerAliases, LockState(), mid, profile.aliases[..i], true)
          {
            assert profile.aliases[..i + 1][..i] == profile.aliases[..i];
            TurnAliasOn(profile.aliases[i]);
          }
        } else {
          for i := 0 to |profile.indices|
            invariant Valid()
            invariant State() == SetIndices(layers, LockState(), start, profile.indices[..i], false)
          {
            assert profile.indices[..i + 1][..i] == profile.indices[..i];
            TurnLayerOff(profile.indices[i]);
          }
          mid := State();
          for i := 0 to |profile.aliases|
            invariant Valid()
            invariant State() == SetAliases(layers, layerAliases, LockState(), mid, profile.aliases[..i], false)
          {
            assert profile.aliases[..i + 1][..i] == profile.aliases[..i];
            TurnAliasOff(profile.aliases[i]);
          }
        }
        assert profile.indices[..|profile.indices|] == profile.indices;
        assert profile.aliases[..|profile.aliases|] == profile.aliases;
      }
    }
  }
}
