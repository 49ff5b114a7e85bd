/** The entity container: a table of slots, one per id index ever handed out,
    each holding an entity or nothing, plus the id generator that names them. */
module Entities {
  import opened Types
  import opened Ids

  /** The part every entity has: where it is, what it draws, and two flags. */
  datatype Entity = Entity(transform: Transform, sprite: Sprite, isActive: bool, isVisible: bool)

  /** A stored entity: its id, its common part and, for an animated entity, its
      animation set (of the type `A`, which this model treats as opaque). */
  datatype Stored<A> = Stored(id: Id, entity: Entity, animation: Option<A>)

  datatype Result<T> = Ok(value: T) | Err(msg: string)

  /** One sprite queued for drawing: the entity's transform and sprite, and a colour. */
  datatype SpriteDraw = SpriteDraw(transform: Transform, sprite: Sprite, color: Color)

  type Slots<A> = seq<Option<Stored<A>>>

  // ---------------------------------------------------------------------------
  // The slot table as a value
  // ---------------------------------------------------------------------------

  /** Storing `s` at `index`: appended when the table is too short, written over
      the slot otherwise. */
  function Place<A>(slots: Slots<A>, index: nat, s: Stored<A>): Slots<A>
    requires index <= |slots|
  {
    if |slots| < index + 1 then slots + [Some(s)] else slots[index := Some(s)]
  }

  /** Placing fills exactly the slot at `index`; the table grows by one exactly when
      `index` is its length, and every other slot keeps its content. */
  lemma PlaceFillsOneSlot<A>(slots: Slots<A>, index: nat, s: Stored<A>)
    requires index <= |slots|
    ensures var r := Place(slots, index, s);
      && |r| == (if index == |slots| then |slots| + 1 else |slots|)
      && r[index] == Some(s)
      && forall i :: 0 <= i < |slots| && i != index ==> r[i] == slots[i]
  {
  }

  /** The indices of the occupied slots. */
  function Occupied<A>(slots: Slots<A>): set<nat> {
    set i | 0 <= i < |slots| && slots[i].Some?
  }

  /** Filling an empty slot adds its index to the occupied ones, and so adds one
      entity; emptying an occupied slot removes its index, and so one entity. */
  lemma OccupiedAfterPlace<A>(slots: Slots<A>, index: nat, s: Stored<A>)
    requires index <= |slots|
    requires index < |slots| ==> slots[index].None?
    ensures Occupied(Place(slots, index, s)) == Occupied(slots) + {index}
    ensures |Occupied(Place(slots, index, s))| == |Occupied(slots)| + 1
  {
    var r := Place(slots, index, s);
    assert forall i :: 0 <= i < |slots| && i != index ==> r[i] == slots[i];
    assert Occupied(r) == Occupied(slots) + {index};
  }

  lemma OccupiedAfterClear<A>(slots: Slots<A>, index: nat)
    requires index < |slots| && slots[index].Some?
    ensures Occupied(slots[index := None]) == Occupied(slots) - {index}
    ensures |Occupied(slots[index := None])| == |Occupied(slots)| - 1
  {
    assert Occupied(slots[index := None]) == Occupied(slots) - {index};
  }

  /** The slots that make `render` queue a sprite: occupied and visible, in
      increasing slot order. */
  function VisibleSlots<A>(slots: Slots<A>): seq<nat>
    decreases |slots|
  {
    if slots == [] then []
    else
      var last := slots[|slots| - 1];
      VisibleSlots(slots[..|slots| - 1])
      + if last.Some? && last.value.entity.isVisible then [|slots| - 1] else []
  }

  /** The sprites `render` queues: one per occupied, visible slot, white, in slot order. */
  function VisibleDraws<A>(slots: Slots<A>): seq<SpriteDraw>
    decreases |slots|
  {
    if slots == [] then []
    else
      var last := slots[|slots| - 1];
      VisibleDraws(slots[..|slots| - 1])
      + if last.Some? && last.value.entity.isVisible
        then [SpriteDraw(last.value.entity.transform, last.value.entity.sprite, White)]
        else []
  }

  predicate ShowsAt<A>(slots: Slots<A>, i: nat) {
    i < |slots| && slots[i].Some? && slots[i].value.entity.isVisible
  }

  /** The listed slots are exactly the occupied visible ones, each once, in
      strictly increasing order. */
  lemma {:induction false} VisibleSlotsAreTheVisibleOnes<A>(slots: Slots<A>)
    ensures forall k :: 0 <= k < |VisibleSlots(slots)| ==> ShowsAt(slots, VisibleSlots(slots)[k])
    ensures forall i: nat :: ShowsAt(slots, i) ==> i in VisibleSlots(slots)
    ensures forall j, k :: 0 <= j < k < |VisibleSlots(slots)| ==> VisibleSlots(slots)[j] < VisibleSlots(slots)[k]
    decreases |slots|
  {
    if slots != [] {
      var init := slots[..|slots| - 1];
      VisibleSlotsAreTheVisibleOnes(init);
      var vi := VisibleSlots(init);
      forall k | 0 <= k < |vi| ensures vi[k] < |slots| - 1 && ShowsAt(slots, vi[k]) {
        assert ShowsAt(init, vi[k]);
        assert slots[vi[k]] == init[vi[k]];
      }
      forall i: nat | ShowsAt(slots, i) ensures i in VisibleSlots(slots) {
        if i < |slots| - 1 {
          assert slots[i] == init[i];
          assert ShowsAt(init, i);
        }
      }
    }
  }

  /** The k-th queued sprite is the one of the k-th listed slot. */
  lemma {:induction false} VisibleDrawsFollowSlots<A>(slots: Slots<A>)
    ensures var vs := VisibleSlots(slots);
      var ds := VisibleDraws(slots);
      && |ds| == |vs|
      && forall k :: 0 <= k < |ds| ==>
           vs[k] < |slots| && slots[vs[k]].Some?
           && ds[k] == SpriteDraw(slots[vs[k]].value.entity.transform, slots[vs[k]].value.entity.sprite, White)
    decreases |slots|
  {
    if slots != [] {
      var init := slots[..|slots| - 1];
      VisibleDrawsFollowSlots(init);
      VisibleSlotsAreTheVisibleOnes(init);
      var vi := VisibleSlots(init);
      forall k | 0 <= k < |vi| ensures vi[k] < |init| && slots[vi[k]] == init[vi[k]] {
        assert ShowsAt(init, vi[k]);
      }
    }
  }

  // ---------------------------------------------------------------------------
  // The container
  // ---------------------------------------------------------------------------

  class EntityContainer<A> {
    var idGen: IdGenerator
    var entities: Slots<A>

    /** One slot per index ever handed out; a slot is occupied exactly when its
        index is in use, and then holds the entity with that id. */
    ghost predicate Valid()
      reads this, idGen
    {
      && idGen.Valid()
      && |entities| == idGen.count
      && (forall i :: 0 <= i < |entities| ==> (entities[i].Some? <==> i in idGen.live))
      && (forall i :: 0 <= i < |entities| && entities[i].Some? ==> entities[i].value.id == Id(i))
    }

    constructor ()
      ensures Valid() && fresh(idGen)
      ensures entities == [] && idGen.live == {}
    {
      idGen := new IdGenerator();
      entities := [];
    }

    /** The number of entities held: one per occupied slot. */
    function Len(): (n: nat)
      requires Valid()
      reads this, idGen
      ensures n == |Occupied(entities)|
    {
      assert idGen.live == Occupied(entities);
      idGen.Len()
    }

    /** The slot an id names; an index past the table is an error. */
    function Get(entityId: Id): (r: Result<Option<Stored<A>>>)
      reads this
      ensures r.Ok? <==> entityId.index < |entities|
      ensures r.Ok? ==> r.value == entities[entityId.index]
    {
      if entityId.index < |entities| then Ok(entities[entityId.index])
      else Err("index out of bounds")
    }

    /** Stores a new active, visible entity with the given transform and sprite
        under a fresh id, and returns that id. */
    method CreateEntity(transform: Transform, sprite: Sprite) returns (entityId: Id)
      requires Valid()
      modifies this, idGen
      ensures Valid() && idGen == old(idGen)
      ensures entityId.index !in old(idGen.live) && idGen.live == old(idGen.live) + {entityId.index}
      ensures entityId.index <= |old(entities)|
      ensures entities == Place(old(entities), entityId.index,
                                Stored(entityId, Entity(transform, sprite, true, true), None))
      ensures Get(entityId) == Ok(Some(Stored(entityId, Entity(transform, sprite, true, true), None)))
      ensures Len() == old(Len()) + 1
    {
      var id := idGen.Next();
      entityId := id;

      var entity := Stored(entityId, Entity(transform, sprite, true, true), None);

      var index := id.index;
      if |entities| < index + 1 {
        entities := entities + [Some(entity)];
      } else {
        entities := entities[index := Some(entity)];
      }
      if id.index < |old(entities)| {
        assert old(entities)[id.index].None?;
      }
      OccupiedAfterPlace(old(entities), id.index, entity);
      assert idGen.live == Occupied(entities);
    }

    /** Like `CreateEntity`, but the entity starts with the default sprite and
        carries the animation set. */
    method CreateEntityAnimated(transform: Transform, animationSet: A) returns (entityId: Id)
      requires Valid()
      modifies this, idGen
      ensures Valid() && idGen == old(idGen)
      ensures entityId.index !in old(idGen.live) && idGen.live == old(idGen.live) + {entityId.index}
      ensures entityId.index <= |old(entities)|
      ensures entities == Place(old(entities), entityId.index,
                                Stored(entityId, Entity(transform, DefaultSprite, true, true), Some(animationSet)))
      ensures Get(entityId) == Ok(Some(Stored(entityId, Entity(transform, DefaultSprite, true, true), Some(animationSet))))
      ensures Len() == old(Len()) + 1
    {
      var id := idGen.Next();
      entityId := id;

      var entity := Stored(entityId, Entity(transform, DefaultSprite, true, true), Some(animationSet));

      var index := id.index;
      if |entities| < index + 1 {
        entities := entities + [Some(entity)];
      } else {
        entities := entities[index := Some(entity)];
      }
      if id.index < |old(entities)| {
        assert old(entities)[id.index].None?;
      }
      OccupiedAfterPlace(old(entities), id.index, entity);
      assert idGen.live == Occupied(entities);
    }

    /** Empties the (occupied) slot an id names and frees the id. */
    method DestroyEntity(entityId: Id)
      requires Valid()
      requires entityId.index < |entities| && entities[entityId.index].Some?
      modifies this, idGen
      ensures Valid() && idGen == old(idGen)
      ensures entities == old(entities)[entityId.index := None]
      ensures idGen.live == old(idGen.live) - {entityId.index}
      ensures Get(entityId) == Ok(None) && Len() == old(Len()) - 1
    {
      var id := entityId;
      entities := entities[id.index := None];
      idGen.Free(id);
      OccupiedAfterClear(old(entities), id.index);
      assert idGen.live == Occupied(entities);
    }

    /** Queues, in slot order, one white sprite per occupied slot whose entity is
        visible; nothing in the container changes. */
    method Render() returns (queued: seq<SpriteDraw>)
      ensures queued == VisibleDraws(entities)
    {
      queued := [];
      for i := 0 to |entities|
        invariant queued == VisibleDraws(entities[..i])
      {
        assert entities[..i + 1][..i] == entities[..i];
        match entities[i] {
          case Some(stored) =>
            if stored.entity.isVisible {
              queued := queued + [SpriteDraw(stored.entity.transform, stored.entity.sprite, White)];
            }
          case None =>
        }
      }
      assert entities[..|entities|] == entities;
    }
  }
}
