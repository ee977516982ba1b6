/**
 `UPlanetManagerSubsystem`: a pool of 2D render targets keyed by
 (slot index, LOD level, 0), filled once from a configuration and released
 when the subsystem is torn down.
 */
module PlanetManager {
  import opened Unreal
  import opened PlanetManagerTypes

  /** The key slot `id` of level `lod` is stored under. */
  function SlotKey(id: int32, lod: int32): IntVector
  {
    IntVector(id, lod, 0)
  }

  /** The keys of the first `n` slots of an entry. */
  function IdKeys(lod: RenderTargetLOD, n: int): set<IntVector>
  {
    set id: int32 | 0 <= id < n :: SlotKey(id, lod.lod)
  }

  /** The keys an entry of the configuration fills. */
  function LODKeys(lod: RenderTargetLOD): set<IntVector>
  {
    IdKeys(lod, lod.count)
  }

  /** The keys the whole configuration fills, entry by entry. */
  function ConfigKeys(lods: seq<RenderTargetLOD>): set<IntVector>
  {
    if |lods| == 0 then {} else ConfigKeys(lods[..|lods| - 1]) + LODKeys(lods[|lods| - 1])
  }

  /** The storage together with the engine's object counter, which decides the identity of each new target. */
  datatype Pool = Pool(storage: map<IntVector, RenderTargetSlot>, nextId: nat)

  /** One pass of the inner loop: create a `width` by `width / 2` target and `Add` a slot for it, overwriting. */
  function AddSlot(pool: Pool, lod: RenderTargetLOD, id: int32, worldAvailable: bool): Pool
  {
    var created := Create2D(pool.nextId, worldAvailable, lod.width, Half(lod.width));
    Pool(pool.storage[SlotKey(id, lod.lod) := SlotFrom(created.0)], created.1)
  }

  /** The inner loop after its first `n` iterations. */
  function FillIds(pool: Pool, lod: RenderTargetLOD, n: int, worldAvailable: bool): Pool
    requires n <= INT32_MAX
    decreases n
  {
    if n <= 0 then pool else AddSlot(FillIds(pool, lod, n - 1, worldAvailable), lod, n - 1, worldAvailable)
  }

  /** The inner loop run to the end for one entry. */
  function FillLOD(pool: Pool, lod: RenderTargetLOD, worldAvailable: bool): Pool
  {
    FillIds(pool, lod, lod.count, worldAvailable)
  }

  /** The outer loop over the configuration's entries, in order. */
  function FillLODs(pool: Pool, lods: seq<RenderTargetLOD>, worldAvailable: bool): Pool
    decreases |lods|
  {
    if |lods| == 0 then pool
    else FillLOD(FillLODs(pool, lods[..|lods| - 1], worldAvailable), lods[|lods| - 1], worldAvailable)
  }

  /**
   What the slot made for entry `lod` holds: it is valid and not in use, and
   its texture is a 2D target of `width` by `width / 2`, or null exactly when
   the engine could not create one.
   */
  ghost predicate RequestedBy(slot: RenderTargetSlot, lod: RenderTargetLOD, worldAvailable: bool)
  {
    && slot.valid
    && !slot.inUse
    && if lod.width > 0 && Half(lod.width) > 0 && worldAvailable then
         slot.texture.Some? && slot.texture.value.RenderTarget2D? &&
         slot.texture.value.sizeX == lod.width && slot.texture.value.sizeY == Half(lod.width)
       else
         slot.texture.None?
  }

  /** The textures of the valid slots: what `Deinitialize` releases. */
  function ValidTextures(storage: map<IntVector, RenderTargetSlot>): set<RenderTarget>
  {
    set s | s in storage.Values && s.valid && s.texture.Some? :: s.texture.value
  }

  /** An entry fills the keys (id, lod, 0) for `0 <= id < count`, and nothing else. */
  lemma LODKeysMembership(lod: RenderTargetLOD, k: IntVector)
    ensures k in LODKeys(lod) <==> k.z == 0 && k.y == lod.lod && 0 <= k.x < lod.count
  {
    if k.z == 0 && k.y == lod.lod && 0 <= k.x < lod.count {
      assert k == SlotKey(k.x, lod.lod);
    }
  }

  /** An entry with a count of zero or less fills no key and changes nothing. */
  lemma NonPositiveCount(pool: Pool, lod: RenderTargetLOD, worldAvailable: bool)
    requires lod.count <= 0
    ensures LODKeys(lod) == {}
    ensures FillLOD(pool, lod, worldAvailable) == pool
  {
  }

  /** An entry left at the default count fills exactly slots 0, 1 and 2 of its level. */
  lemma DefaultCountKeys(width: int32, lod: int32)
    ensures LODKeys(LODWithDefaultCount(width, lod)) == {SlotKey(0, lod), SlotKey(1, lod), SlotKey(2, lod)}
  {
    forall k | k in LODKeys(LODWithDefaultCount(width, lod))
      ensures k in {SlotKey(0, lod), SlotKey(1, lod), SlotKey(2, lod)}
    {
      LODKeysMembership(LODWithDefaultCount(width, lod), k);
    }
    forall k | k in {SlotKey(0, lod), SlotKey(1, lod), SlotKey(2, lod)}
      ensures k in LODKeys(LODWithDefaultCount(width, lod))
    {
      LODKeysMembership(LODWithDefaultCount(width, lod), k);
    }
  }

  /**
   A key belongs to the configuration's keys exactly when some entry fills it:
   its extra component is 0, its level is that entry's and `0 <= index < count`.
   */
  lemma {:induction false} ConfigKeysMembership(lods: seq<RenderTargetLOD>, k: IntVector)
    ensures k in ConfigKeys(lods) <==>
              k.z == 0 && exists j :: 0 <= j < |lods| && k.y == lods[j].lod && 0 <= k.x < lods[j].count
    decreases |lods|
  {
    if |lods| > 0 {
      var last := |lods| - 1;
      ConfigKeysMembership(lods[..last], k);
      LODKeysMembership(lods[last], k);
      if k.z == 0 && exists j :: 0 <= j < |lods| && k.y == lods[j].lod && 0 <= k.x < lods[j].count {
        var j :| 0 <= j < |lods| && k.y == lods[j].lod && 0 <= k.x < lods[j].count;
        if j < last {
          assert lods[..last][j] == lods[j];
        }
      }
      if k in ConfigKeys(lods[..last]) {
        var j :| 0 <= j < last && k.y == lods[..last][j].lod && 0 <= k.x < lods[..last][j].count;
        assert lods[j] == lods[..last][j];
      }
    }
  }

  /** The index of the last entry that fills key `k`: the one whose slot `Add` leaves in place. */
  function LastCover(lods: seq<RenderTargetLOD>, k: IntVector): (j: int)
    requires k in ConfigKeys(lods)
    ensures 0 <= j < |lods| && k in LODKeys(lods[j])
    ensures forall j' :: j < j' < |lods| ==> k !in LODKeys(lods[j'])
    decreases |lods|
  {
    if k in LODKeys(lods[|lods| - 1]) then |lods| - 1
    else
      var j := LastCover(lods[..|lods| - 1], k);
      assert forall j' :: j < j' < |lods| - 1 ==> lods[..|lods| - 1][j'] == lods[j'];
      j
  }

  /** The keys of the first `n` slots grow by one key per slot. */
  lemma IdKeysStep(lod: RenderTargetLOD, n: int)
    requires 0 < n <= INT32_MAX
    ensures IdKeys(lod, n) == IdKeys(lod, n - 1) + {SlotKey(n - 1, lod.lod)}
  {
    forall k | k in IdKeys(lod, n) ensures k in IdKeys(lod, n - 1) + {SlotKey(n - 1, lod.lod)} {
      var id: int32 :| 0 <= id < n && k == SlotKey(id, lod.lod);
      if id < n - 1 {
        assert k in IdKeys(lod, n - 1);
      }
    }
  }

  /**
   The inner loop for one entry: it adds the keys of its first `n` slots,
   each holding the slot that entry requested, keeps every other entry, and
   only advances the engine's counter.
   */
  lemma {:induction false} FillIdsEffect(pool: Pool, lod: RenderTargetLOD, n: int, worldAvailable: bool)
    requires n <= INT32_MAX
    ensures var r := FillIds(pool, lod, n, worldAvailable);
            && r.storage.Keys == pool.storage.Keys + IdKeys(lod, n)
            && (forall k :: k in IdKeys(lod, n) ==> RequestedBy(r.storage[k], lod, worldAvailable))
            && (forall k :: k in pool.storage && k !in IdKeys(lod, n) ==> r.storage[k] == pool.storage[k])
            && r.nextId >= pool.nextId
    decreases n
  {
    if n > 0 {
      FillIdsEffect(pool, lod, n - 1, worldAvailable);
      IdKeysStep(lod, n);
    }
  }

  /**
   The whole configuration: the storage gains exactly the configuration's
   keys, the slot under each is the one requested by the last entry that
   fills it (later entries overwrite), and every other entry is kept.
   */
  lemma {:induction false} FillLODsEffect(pool: Pool, lods: seq<RenderTargetLOD>, worldAvailable: bool)
    ensures var r := FillLODs(pool, lods, worldAvailable);
            && r.storage.Keys == pool.storage.Keys + ConfigKeys(lods)
            && (forall k :: k in ConfigKeys(lods) ==> RequestedBy(r.storage[k], lods[LastCover(lods, k)], worldAvailable))
            && (forall k :: k in pool.storage && k !in ConfigKeys(lods) ==> r.storage[k] == pool.storage[k])
            && r.nextId >= pool.nextId
    decreases |lods|
  {
    if |lods| > 0 {
      var init := lods[..|lods| - 1];
      var last := lods[|lods| - 1];
      FillLODsEffect(pool, init, worldAvailable);
      FillIdsEffect(FillLODs(pool, init, worldAvailable), last, last.count, worldAvailable);
      forall k | k in ConfigKeys(lods) && k !in LODKeys(last)
        ensures LastCover(lods, k) == LastCover(init, k)
      {
      }
    }
  }

  /**
   On an empty pool, the storage's keys are exactly the keys (id, lod, 0) of
   every entry and every `0 <= id < count`.
   */
  lemma FirstFillKeys(nextId: nat, lods: seq<RenderTargetLOD>, worldAvailable: bool, k: IntVector)
    ensures k in FillLODs(Pool(map[], nextId), lods, worldAvailable).storage <==>
              k.z == 0 && exists j :: 0 <= j < |lods| && k.y == lods[j].lod && 0 <= k.x < lods[j].count
  {
    FillLODsEffect(Pool(map[], nextId), lods, worldAvailable);
    ConfigKeysMembership(lods, k);
  }

  /** Running the outer loop over `a + b` is running it over `a`, then over `b`. */
  lemma {:induction false} FillLODsAppend(pool: Pool, a: seq<RenderTargetLOD>, b: seq<RenderTargetLOD>, worldAvailable: bool)
    ensures FillLODs(pool, a + b, worldAvailable) == FillLODs(FillLODs(pool, a, worldAvailable), b, worldAvailable)
    decreases |b|
  {
    if |b| == 0 {
      assert a + b == a;
    } else {
      assert (a + b)[..|a + b| - 1] == a + b[..|b| - 1];
      FillLODsAppend(pool, a, b[..|b| - 1], worldAvailable);
    }
  }

  /**
   `Add` overwrites: once entry `lod` has filled key `k`, the entries after it
   that do not fill `k` leave that slot as `lod` made it.
   */
  lemma LaterEntryWins(pool: Pool, pre: seq<RenderTargetLOD>, lod: RenderTargetLOD, post: seq<RenderTargetLOD>,
                       worldAvailable: bool, k: IntVector)
    requires k in LODKeys(lod) && k !in ConfigKeys(post)
    ensures var r := FillLODs(pool, pre + [lod] + post, worldAvailable);
            var filled := FillLOD(FillLODs(pool, pre, worldAvailable), lod, worldAvailable);
            k in r.storage && k in filled.storage && r.storage[k] == filled.storage[k]
  {
    var before := FillLODs(pool, pre, worldAvailable);
    var filled := FillLOD(before, lod, worldAvailable);
    FillLODsAppend(pool, pre + [lod], post, worldAvailable);
    assert (pre + [lod])[..|pre + [lod]| - 1] == pre;
    assert FillLODs(pool, pre + [lod], worldAvailable) == filled;
    FillIdsEffect(before, lod, lod.count, worldAvailable);
    FillLODsEffect(filled, post, worldAvailable);
  }

  /**
   The slot an entry writes under a key does not depend on what was stored
   there before, only on the engine's counter.
   */
  lemma {:induction false} SlotIgnoresPreviousStorage(p1: Pool, p2: Pool, lod: RenderTargetLOD, n: int,
                                                      worldAvailable: bool, k: IntVector)
    requires n <= INT32_MAX && p1.nextId == p2.nextId && k in IdKeys(lod, n)
    ensures var r1 := FillIds(p1, lod, n, worldAvailable);
            var r2 := FillIds(p2, lod, n, worldAvailable);
            r1.nextId == r2.nextId && k in r1.storage && k in r2.storage && r1.storage[k] == r2.storage[k]
    decreases n
  {
    IdKeysStep(lod, n);
    FillIdsEffect(p1, lod, n, worldAvailable);
    FillIdsEffect(p2, lod, n, worldAvailable);
    if k != SlotKey(n - 1, lod.lod) {
      SlotIgnoresPreviousStorage(p1, p2, lod, n - 1, worldAvailable, k);
    } else if n > 1 {
      SlotIgnoresPreviousStorage(p1, p2, lod, n - 1, worldAvailable, SlotKey(0, lod.lod));
    }
  }

  /**
   A slot is marked valid even when no target could be created: an entry one
   pixel wide asks for a height of 0, the engine returns null, and the slot
   holds a null texture with `bValid` set.
   */
  lemma NarrowEntryMakesNullValidSlot(nextId: nat, worldAvailable: bool)
    ensures var r := FillLODs(Pool(map[], nextId), [RenderTargetLOD(1, 0, 1)], worldAvailable);
            SlotKey(0, 0) in r.storage && r.storage[SlotKey(0, 0)] == RenderTargetSlot(false, true, None)
  {
    var lods := [RenderTargetLOD(1, 0, 1)];
    assert lods[..0] == [];
  }

  /**
   When a world is available and every entry that fills any key is at least
   two pixels wide, every valid slot of a freshly filled pool holds a texture,
   which is what `Deinitialize` dereferences.
   */
  lemma TeardownSafeFill(nextId: nat, lods: seq<RenderTargetLOD>, worldAvailable: bool)
    requires worldAvailable
    requires forall j :: 0 <= j < |lods| && lods[j].count > 0 ==> lods[j].width >= 2
    ensures var r := FillLODs(Pool(map[], nextId), lods, worldAvailable);
            forall k :: k in r.storage && r.storage[k].valid ==> r.storage[k].texture.Some?
  {
    var r := FillLODs(Pool(map[], nextId), lods, worldAvailable);
    FillLODsEffect(Pool(map[], nextId), lods, worldAvailable);
    forall k | k in r.storage && r.storage[k].valid
      ensures r.storage[k].texture.Some?
    {
      var j := LastCover(lods, k);
      LODKeysMembership(lods[j], k);
    }
  }

  /** Releasing the valid slots of a value array one by one releases `ValidTextures` of the map. */
  lemma ValidTexturesOfValueArray(values: seq<RenderTargetSlot>, storage: map<IntVector, RenderTargetSlot>)
    requires forall s :: s in values <==> s in storage.Values
    requires forall s :: s in values && s.valid ==> s.texture.Some?
    ensures (set j | 0 <= j < |values| && values[j].valid :: values[j].texture.value) == ValidTextures(storage)
  {
    var released := set j | 0 <= j < |values| && values[j].valid :: values[j].texture.value;
    forall t | t in ValidTextures(storage) ensures t in released {
      var s :| s in storage.Values && s.valid && s.texture.Some? && s.texture.value == t;
      var j :| 0 <= j < |values| && values[j] == s;
    }
  }

  class PlanetManagerSubsystem {
    var initialized: bool
    /** Keyed by (slot index, LOD level, 0). */
    var renderTargetStorage: map<IntVector, RenderTargetSlot>

    /** Until the pool has been filled the storage is empty; teardown empties it again. */
    ghost predicate Valid()
      reads this
    {
      !initialized ==> renderTargetStorage == map[]
    }

    /** A new subsystem: not initialised, no slots. */
    constructor ()
      ensures !initialized && renderTargetStorage == map[]
      ensures Valid()
    {
      initialized := false;
      renderTargetStorage := map[];
    }

    /** `Initialize`: its body is empty. */
    method Initialize()
      ensures unchanged(this)
    {
    }

    /**
     `Deinitialize`: releases the texture of every valid slot and empties the
     storage. `initialized` is kept, so the pool is never filled again. A
     valid slot whose texture is null would be dereferenced: the caller must
     not let that happen.
     */
    method Deinitialize(engine: Engine)
      requires forall k :: k in renderTargetStorage && renderTargetStorage[k].valid ==> renderTargetStorage[k].texture.Some?
      modifies this`renderTargetStorage, engine`released
      ensures renderTargetStorage == map[]
      ensures engine.released == old(engine.released) + ValidTextures(old(renderTargetStorage))
      ensures Valid()
    {
      var values, slotKeys := GenerateValueArray(renderTargetStorage);
      assert forall s :: s in values && s.valid ==> s.texture.Some?;
      for i := 0 to |values|
        modifies engine`released
        invariant engine.released == old(engine.released) + set j | 0 <= j < i && values[j].valid :: values[j].texture.value
      {
        var slot := values[i];
        if slot.valid {
          engine.ReleaseResource(slot.texture.value);
        }
      }
      ValidTexturesOfValueArray(values, renderTargetStorage);
      renderTargetStorage := map[];
    }

    /**
     `SetupTexturesIfNot`: on the first call, one slot per entry and per index
     `0 <= id < count`, each wrapping a target created at `width` by
     `width / 2`; later calls change nothing.
     */
    method SetupTexturesIfNot(engine: Engine, worldAvailable: bool, config: RenderTargetConfig)
      modifies this, engine`nextId
      ensures initialized
      ensures old(initialized) ==>
                renderTargetStorage == old(renderTargetStorage) && engine.nextId == old(engine.nextId)
      ensures !old(initialized) ==>
                Pool(renderTargetStorage, engine.nextId) ==
                FillLODs(Pool(old(renderTargetStorage), old(engine.nextId)), config.lods, worldAvailable)
      ensures Valid()
      ensures !old(initialized) && old(Valid()) ==> renderTargetStorage.Keys == ConfigKeys(config.lods)
    {
      if !initialized {
        ghost var start := Pool(renderTargetStorage, engine.nextId);
        for j := 0 to |config.lods|
          invariant Pool(renderTargetStorage, engine.nextId) == FillLODs(start, config.lods[..j], worldAvailable)
        {
          var lod := config.lods[j];
          ghost var before := Pool(renderTargetStorage, engine.nextId);
          var id: int32 := 0;
          while id < lod.count
            invariant 0 <= id && (id <= lod.count || id == 0)
            invariant Pool(renderTargetStorage, engine.nextId) == FillIds(before, lod, id, worldAvailable)
          {
            var rt := engine.CreateRenderTarget2D(worldAvailable, lod.width, Half(lod.width));
            var slot := SlotFrom(rt);
            renderTargetStorage := renderTargetStorage[IntVector(id, lod.lod, 0) := slot];
            id := id + 1;
          }
          assert FillIds(before, lod, id, worldAvailable) == FillLOD(before, lod, worldAvailable);
          assert config.lods[..j + 1][j] == lod;
          assert config.lods[..j + 1][..j] == config.lods[..j];
        }
        assert config.lods[..|config.lods|] == config.lods;
        FillLODsEffect(start, config.lods, worldAvailable);
        initialized := true;
      }
    }
  }

  /**
   A torn-down subsystem stays initialised: asking for the pool again after
   `Deinitialize` leaves the storage empty and creates nothing.
   */
  method SetupAfterTeardown(config: RenderTargetConfig) returns (slotsAfter: nat, created: nat)
    requires forall j :: 0 <= j < |config.lods| && config.lods[j].count > 0 ==> config.lods[j].width >= 2
    ensures slotsAfter == 0
    ensures created == |ConfigKeys(config.lods)|
  {
    var engine := new Engine();
    var subsystem := new PlanetManagerSubsystem();
    subsystem.Initialize();
    subsystem.SetupTexturesIfNot(engine, true, config);
    created := |subsystem.renderTargetStorage|;
    TeardownSafeFill(0, config.lods, true);
    subsystem.Deinitialize(engine);
    var idBefore := engine.nextId;
    subsystem.SetupTexturesIfNot(engine, true, config);
    assert engine.nextId == idBefore;
    slotsAfter := |subsystem.renderTargetStorage|;
  }
}
