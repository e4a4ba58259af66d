/** A world's entities: how indices are handed out, reserved, freed and reused
    (ecs/entitytable.go). */
module EcsEntityTable {
  import opened Basics
  import opened EcsEntity

  /** The table's entry for one index: the generation alive there, 0 if none
      is; the last generation handed out or placed; the entity's components. */
  datatype Slot = Slot(live: nat, last: nat, mask: set<nat>)

  /** NO_ENTITY answers that there is none. */
  function Answered(e: Entity): Option<Entity> {
    if e == NO_ENTITY then None else Some(e)
  }

  function Count(b: bool): nat {
    if b then 1 else 0
  }

  /** The table's fields. free is handed out from the back; reserved counts the
      entities handed out since reservations were last settled, from free first
      and then from nextFresh on. The ghost ones say what happened:
        freeAt     where free has each of its indices,
        dying      the indices despawned and not freed yet, and where despawned
                   has them,
        lost       the indices of reservations settled before they were spawned,
        handedOut  every entity reserve answered,
        ended      every entity of the range despawned, or taken back. */
  datatype TableState = TableState(
    first: nat, last: nat, slots: map<nat, Slot>, free: seq<Entity>, reserved: nat, nextFresh: nat,
    observing: bool, despawned: seq<nat>, outside: set<nat>,
    ghost freeAt: map<nat, nat>, ghost dying: map<nat, nat>, ghost lost: set<nat>,
    ghost handedOut: set<Entity>, ghost ended: set<Entity>)
  {
    predicate InRange(index: nat) {
      first <= index <= last
    }

    function SlotAt(index: nat): Slot {
      if index in slots then slots[index] else Slot(0, 0, {})
    }

    predicate Alive(e: Entity) {
      var slot := SlotAt(e.index);
      slot.live == e.generation && slot.live != 0
    }

    /** How many of free are not reserved. */
    function Kept(): nat {
      if reserved < |free| then |free| - reserved else 0
    }

    /** How many fresh indices are reserved. */
    function TakenFresh(): int {
      if reserved <= |free| then 0 else Min(reserved - |free|, last + 1 - nextFresh)
    }

    /** The first index of the range never handed out. */
    function HandedEnd(): int {
      nextFresh + TakenFresh()
    }

    /** What is handed out next: the last free entity not reserved, then the
        next fresh index, then none. */
    ghost function Next(): Option<Entity>
      requires Shape()
    {
      if Kept() > 0 then Some(free[Kept() - 1])
      else if HandedEnd() <= last then Some(Entity(HandedEnd(), 1))
      else None
    }

    /** The entities of the free list not reserved, in the order they were freed. */
    ghost function KeptFree(): seq<Entity> {
      free[..Kept()]
    }

    /** How many entities were reserved since reservations were last settled, those
        spawned since included. */
    ghost function TakenCount(): int {
      |free| - Kept() + TakenFresh()
    }

    /** The k-th of them: those of the free list come first. */
    ghost function TakenAt(k: nat): Entity {
      if Kept() + k < |free| then free[Kept() + k]
      else Entity(nextFresh + (Kept() + k - |free|), 1)
    }

    /** What a window's end frees of the first k: each never spawned, in order, at its
        next generation. */
    ghost function TakenBackOf(k: nat): seq<Entity> {
      if k == 0 then []
      else
        var e := TakenAt(k - 1);
        TakenBackOf(k - 1) + if Pending(e.index) then [Entity(e.index, NextGeneration(e.generation))] else []
    }

    /** And of the indices despawned: each of the range, in order, at its next
        generation. */
    ghost function FreedOf(indices: seq<nat>): seq<Entity> {
      if indices == [] then []
      else
        var index := indices[|indices| - 1];
        FreedOf(indices[..|indices| - 1])
            + if InRange(index) then [Entity(index, NextGeneration(SlotAt(index).last))] else []
    }

    /** The free list once the window ends: what was not reserved, then, in a table
        that observes, what is taken back and what was despawned. */
    ghost function FreeAfterWindow(): seq<Entity>
      requires Shape()
    {
      if observing then KeptFree() + TakenBackOf(TakenCount()) + FreedOf(despawned) else KeptFree()
    }

    /** The table's entry for index once the window ends: a generation reserved and
        never spawned is burned. */
    ghost function SlotAfterWindow(index: nat): Slot {
      var slot := SlotAt(index);
      if observing && Pending(index) then slot.(last := slot.last + 1) else slot
    }

    /** Whether e's generation is the next at an index with none alive: all the
        table asks before it makes a reserved entity alive. */
    predicate LooksReserved(e: Entity) {
      SlotAt(e.index).live == 0 && e.generation == NextGeneration(SlotAt(e.index).last)
    }

    /** Whether the table may place e. */
    ghost predicate MayPlace(e: Entity) {
      e.generation != 0 && !InRange(e.index) && SlotAt(e.index).live == 0 && e.index !in dying
    }

    ghost predicate OnFree(index: nat) {
      index in freeAt && freeAt[index] < Kept()
    }

    ghost predicate Taken(index: nat) {
      (index in freeAt && freeAt[index] >= Kept()) || nextFresh <= index < HandedEnd()
    }

    ghost function HandedGeneration(index: nat): nat {
      if index in freeAt && freeAt[index] < |free| then free[freeAt[index]].generation else 1
    }

    /** Whether index is reserved and not spawned yet. */
    ghost predicate Pending(index: nat) {
      Taken(index) && HandedGeneration(index) == SlotAt(index).last + 1
    }

    ghost predicate Shape() {
      && first <= nextFresh <= last + 1
      && (observing ==> outside <= dying.Keys)
      && (!observing ==> despawned == [] && outside == {})
    }

    /** An index handed out is exactly one of live, free, reserved, despawned
        and not freed yet, and lost; one not handed out yet is untouched. */
    ghost predicate IndexOk(index: nat) {
      var slot := SlotAt(index);
      && (slot.live == 0 || slot.live == slot.last)
      && (slot.live == 0 ==> slot.mask == {})
      && (index in dying ==> slot.live == 0 && slot.last > 0)
      && (index in freeAt ==>
            freeAt[index] < |free| && free[freeAt[index]].index == index && first <= index < nextFresh)
      && (index in lost ==> InRange(index))
      && (InRange(index) && index >= HandedEnd() ==>
            slot == Slot(0, 0, {}) && index !in dying && index !in lost)
      && (InRange(index) && index < HandedEnd() ==>
            && Count(slot.live != 0) + Count(OnFree(index)) + Count(Pending(index)) + Count(index in dying)
                  + Count(index in lost) == 1
            && (OnFree(index) ==> HandedGeneration(index) == slot.last + 1)
            && (Taken(index) ==> index !in lost && slot.last <= HandedGeneration(index) <= slot.last + 1))
    }

    ghost predicate FreeOk(position: nat) {
      position < |free| ==> free[position].index in freeAt && freeAt[free[position].index] == position
    }

    /** An entity handed out is past, or waits at its index to be spawned. */
    ghost predicate HandleOk(e: Entity) {
      e in handedOut ==>
        && InRange(e.index) && e.index < HandedEnd()
        && 0 < e.generation <= SlotAt(e.index).last + 1
        && (e.generation == SlotAt(e.index).last + 1 ==> Pending(e.index) || e.index in lost)
    }

    ghost predicate EndedOk(e: Entity) {
      e in ended ==>
          InRange(e.index) && 0 < e.generation <= SlotAt(e.index).last && SlotAt(e.index).live != e.generation
    }

    ghost predicate Coherent() {
      && Shape()
      && (forall i: nat {:trigger IndexOk(i)} :: IndexOk(i))
      && (forall p: nat {:trigger FreeOk(p)} :: FreeOk(p))
      && (forall e {:trigger HandleOk(e)} :: HandleOk(e))
      && (forall e {:trigger EndedOk(e)} :: EndedOk(e))
    }

    /** despawned holds, once each, the indices dying in a table that observes. */
    ghost predicate DyingOk(index: nat) {
      && (index in dying ==> dying[index] < |despawned| && despawned[dying[index]] == index)
      && (index in outside <==> index in dying && !InRange(index))
    }

    ghost predicate DespawnedOk(position: nat) {
      position < |despawned| ==> despawned[position] in dying && dying[despawned[position]] == position
    }

    ghost predicate Valid() {
      && Coherent()
      && (forall i: nat {:trigger DyingOk(i)} :: DyingOk(i))
      && (forall p: nat {:trigger DespawnedOk(p)} :: DespawnedOk(p))
    }
  }

  /** The free list, how many are reserved and the next fresh index are those given. */
  ghost predicate Counts(t: TableState, free: seq<Entity>, reserved: nat, nextFresh: int) {
    t.free == free && t.reserved == reserved && t.nextFresh == nextFresh
  }

  /** What is next was handed out, if anything, and the rest is still to be. */
  ghost predicate SuppliesNext(s: TableState, t: TableState) {
    && t.despawned == s.despawned
    && if s.Kept() > 0 then t.KeptFree() == s.KeptFree()[..s.Kept() - 1] && t.HandedEnd() == s.HandedEnd()
       else t.KeptFree() == [] && t.HandedEnd() == if s.HandedEnd() <= s.last then s.HandedEnd() + 1 else s.HandedEnd()
  }

  ghost predicate SameSupply(s: TableState, t: TableState) {
    t.despawned == s.despawned && Counts(t, s.free, s.reserved, s.nextFresh)
  }

  /** Where its index goes once e is despawned: it is noted, or, in a table that does
      not observe, is the next handed out of those freed, if it is of the range. */
  ghost predicate Frees(s: TableState, t: TableState, e: Entity) {
    if s.observing then t.despawned == s.despawned + [e.index] && Counts(t, s.free, s.reserved, s.nextFresh)
    else
      && t.despawned == s.despawned
      && Counts(t, s.KeptFree() + if s.InRange(e.index) then [Entity(e.index, NextGeneration(e.generation))] else [],
                0, s.HandedEnd())
  }

  /** One more entity reserved, e unless the range is used up. */
  ghost predicate Reserves(s: TableState, t: TableState, e: Entity) {
    && s.Coherent()
    && t == s.(reserved := s.reserved + 1, handedOut := t.handedOut)
    && (if s.Kept() > 0 then e == s.free[s.Kept() - 1] && t.handedOut == s.handedOut + {e}
        else if s.HandedEnd() <= s.last
        then s.HandedEnd() == s.nextFresh + s.reserved - |s.free| && e == Entity(s.HandedEnd(), 1)
            && t.handedOut == s.handedOut + {e}
        else t.handedOut == s.handedOut)
  }

  lemma ReservesKeepsIndex(s: TableState, t: TableState, e: Entity, index: nat)
    requires Reserves(s, t, e)
    ensures t.IndexOk(index)
  {
    assert s.IndexOk(index);
    if s.Kept() > 0 {
      assert s.FreeOk(s.Kept() - 1);
    }
  }

  lemma ReservesKeepsCoherent(s: TableState, t: TableState, e: Entity)
    requires Reserves(s, t, e)
    ensures t.Coherent()
    ensures s.Kept() > 0 || s.HandedEnd() <= s.last ==>
              && e !in s.handedOut && s.InRange(e.index) && e.index !in s.dying
              && s.SlotAt(e.index).live == 0 && t.Pending(e.index) && e.generation == t.SlotAt(e.index).last + 1
  {
    if s.Kept() > 0 {
      assert s.FreeOk(s.Kept() - 1);
    }
    assert s.IndexOk(e.index) && s.HandleOk(e);
    forall i: nat ensures t.IndexOk(i) { ReservesKeepsIndex(s, t, e, i); }
    forall p: nat ensures t.FreeOk(p) { assert s.FreeOk(p); }
    forall h ensures t.HandleOk(h) { assert s.HandleOk(h) && s.IndexOk(h.index); }
    forall h ensures t.EndedOk(h) { assert s.EndedOk(h); }
  }

  /** e alive at its index and generation. */
  ghost function MadeAlive(s: TableState, e: Entity): TableState {
    s.(slots := s.slots[e.index := s.SlotAt(e.index).(live := e.generation, last := e.generation)],
       lost := s.lost - {e.index})
  }

  /** Whether e may come alive: outside the range any entity may at an index
      with none, in it only one reserved or lost. */
  ghost predicate MayLive(s: TableState, e: Entity) {
    && e.generation > 0 && s.SlotAt(e.index).live == 0 && e.index !in s.dying
    && (s.InRange(e.index) ==>
          e.generation == s.SlotAt(e.index).last + 1 && (s.Pending(e.index) || e.index in s.lost))
  }

  /** Where the table finds e to be the next generation, making it alive keeps
      the table sound exactly if e may come alive, as every entity reserve
      answered may. */
  lemma MayLiveIff(s: TableState, e: Entity)
    requires s.Coherent() && s.LooksReserved(e)
    ensures MayLive(s, e) <==> MadeAlive(s, e).Coherent()
    ensures e in s.handedOut ==> MayLive(s, e)
  {
    assert s.IndexOk(e.index) && s.HandleOk(e);
    if MayLive(s, e) {
      MadeAliveKeepsCoherent(s, e);
    } else {
      assert !MadeAlive(s, e).IndexOk(e.index);
    }
  }

  /** Whether e is a reservation still waiting to be spawned, one whose index the
      table lost included. */
  ghost predicate IsWaiting(s: TableState, e: Entity) {
    s.InRange(e.index) && MayLive(s, e)
  }

  /** Whether none ever reserved e's index as it now is: it lies outside the
      range, is on the free list, was never handed out, or had its entity
      despawned this window. */
  ghost predicate NeverReserved(s: TableState, index: nat) {
    !s.InRange(index) || s.OnFree(index) || index >= s.HandedEnd() || index in s.dying
  }

  /** A commit is to drop the spawn of what is not a reservation still waiting.
      It does so exactly for entities that do not have the next generation of
      an index none reserved. */
  lemma SpawnsOnlyTheWaitingIff(s: TableState, e: Entity)
    requires s.Coherent()
    ensures (s.LooksReserved(e) <==> IsWaiting(s, e)) <==> !(s.LooksReserved(e) && NeverReserved(s, e.index))
  {
    assert s.IndexOk(e.index);
  }

  /** What comes alive though its index was free, or never handed out, is handed
      out again while it lives: it is next, after more reservations. */
  lemma HandedOutWhileAlive(s: TableState, e: Entity) returns (more: nat)
    requires s.Coherent() && s.LooksReserved(e) && s.InRange(e.index)
    requires s.OnFree(e.index) || e.index >= s.HandedEnd()
    ensures var t := MadeAlive(s, e).(reserved := s.reserved + more);
            t.Alive(e) && t.Shape() && t.Next() == Some(e)
  {
    assert s.IndexOk(e.index);
    more := (if s.OnFree(e.index) then |s.free| - 1 - s.freeAt[e.index]
             else |s.free| + e.index - s.nextFresh) - s.reserved;
  }

  /** What comes alive at an index of the range despawned this window has its
      index freed at the window's end, while it lives. */
  lemma FreedWhileAlive(s: TableState, e: Entity)
    requires s.Coherent() && s.LooksReserved(e) && s.InRange(e.index) && e.index in s.dying
    ensures var t := Freed(MadeAlive(s, e).(reserved := 0), e.index);
            t.Alive(e) && t.Shape() && t.Next() == Some(Entity(e.index, NextGeneration(e.generation)))
  {
    assert s.IndexOk(e.index);
  }

  /** One input: the range is 0 to 1, and entity 0 was spawned, despawned and
      freed. Its index at the next generation, which none reserved, comes
      alive, and is what the table hands out next. */
  lemma FreeEntityComesAlive() returns (s: TableState, e: Entity)
    ensures s.slots == map[0 := Slot(0, 1, {})] && s.free == [Entity(0, 2)] && s.reserved == 0 && e == Entity(0, 2)
    ensures s.Valid() && s.LooksReserved(e) && !IsWaiting(s, e)
    ensures MadeAlive(s, e).Alive(e) && MadeAlive(s, e).Next() == Some(e)
  {
    s := TableState(0, 1, map[0 := Slot(0, 1, {})], [Entity(0, 2)], 0, 1, false, [], {},
                    map[0 := 0], map[], {}, {Entity(0, 1)}, {Entity(0, 1)});
    e := Entity(0, 2);
    forall i: nat ensures s.IndexOk(i) && s.DyingOk(i) { }
    forall h ensures s.HandleOk(h) && s.EndedOk(h) { }
  }

  /** No index forgets a generation it has held. */
  ghost predicate LastsGrow(s: TableState, t: TableState) {
    && t.first == s.first && t.last == s.last
    && forall i: nat {:trigger t.SlotAt(i)} :: t.InRange(i) ==> t.SlotAt(i).last >= s.SlotAt(i).last
  }

  lemma MadeAliveKeepsCoherent(s: TableState, e: Entity)
    requires s.Coherent() && MayLive(s, e)
    ensures MadeAlive(s, e).Coherent()
  {
    var t := MadeAlive(s, e);
    forall i: nat ensures t.IndexOk(i) { MadeAliveKeepsIndex(s, e, i); }
    forall p: nat ensures t.FreeOk(p) { assert s.FreeOk(p); }
    forall h ensures t.HandleOk(h) { assert s.HandleOk(h) && s.IndexOk(h.index); }
    forall h ensures t.EndedOk(h) { assert s.EndedOk(h) && s.IndexOk(h.index); }
  }

  lemma MadeAliveKeepsIndex(s: TableState, e: Entity, index: nat)
    requires s.Coherent() && MayLive(s, e)
    ensures MadeAlive(s, e).IndexOk(index)
  {
    assert s.IndexOk(index) && s.IndexOk(e.index);
  }

  /** e despawned, and dying. */
  ghost function Ended(s: TableState, e: Entity): TableState {
    s.(slots := s.slots[e.index := s.SlotAt(e.index).(live := 0, mask := {})],
       dying := s.dying[e.index := |s.despawned|],
       ended := if s.InRange(e.index) then s.ended + {e} else s.ended)
  }

  lemma EndedKeepsCoherent(s: TableState, e: Entity)
    requires s.Coherent() && s.Alive(e)
    ensures Ended(s, e).Coherent() && e.index !in s.dying
  {
    var t := Ended(s, e);
    EndedKeepsIndex(s, e, e.index);
    forall i: nat ensures t.IndexOk(i) { EndedKeepsIndex(s, e, i); }
    forall p: nat ensures t.FreeOk(p) { assert s.FreeOk(p); }
    forall h ensures t.HandleOk(h) { assert s.HandleOk(h) && s.IndexOk(h.index); }
    forall h ensures t.EndedOk(h) { assert s.EndedOk(h) && s.IndexOk(h.index); }
  }

  lemma EndedKeepsIndex(s: TableState, e: Entity, index: nat)
    requires s.Coherent() && s.Alive(e)
    ensures Ended(s, e).IndexOk(index) && e.index !in s.dying && s.SlotAt(e.index).last == e.generation
  {
    assert s.IndexOk(index) && s.IndexOk(e.index);
  }

  /** The reservations settled, those never spawned being lost. */
  ghost function Settled(s: TableState): TableState
    requires s.Coherent()
  {
    s.(free := s.free[..s.Kept()], reserved := 0, nextFresh := s.HandedEnd(),
       freeAt := map i | i in s.freeAt && s.freeAt[i] < s.Kept() :: s.freeAt[i],
       lost := s.lost + set i: nat | s.first <= i < s.HandedEnd() && s.Pending(i))
  }

  lemma SettledKeepsCoherent(s: TableState)
    requires s.Coherent()
    ensures Settled(s).Coherent()
  {
    var t := Settled(s);
    forall i: nat ensures t.IndexOk(i) { assert s.IndexOk(i); }
    forall p: nat ensures t.FreeOk(p) { assert s.FreeOk(p); }
    forall h ensures t.HandleOk(h) { assert s.HandleOk(h) && s.IndexOk(h.index); }
    forall h ensures t.EndedOk(h) { assert s.EndedOk(h); }
  }

  /** A lost reservation taken back: its generation burned, its index free. */
  ghost function TakenBack(s: TableState, e: Entity): TableState {
    s.(slots := s.slots[e.index := s.SlotAt(e.index).(last := e.generation)],
       free := s.free + [Entity(e.index, NextGeneration(e.generation))], freeAt := s.freeAt[e.index := |s.free|],
       lost := s.lost - {e.index}, ended := s.ended + {e})
  }

  lemma TakenBackKeepsCoherent(s: TableState, e: Entity)
    requires s.Coherent() && s.reserved == 0
    requires e.index in s.lost && e.generation == s.SlotAt(e.index).last + 1
    ensures TakenBack(s, e).Coherent()
  {
    var t := TakenBack(s, e);
    assert s.IndexOk(e.index);
    forall i: nat ensures t.IndexOk(i) { assert s.IndexOk(i); }
    forall p: nat ensures t.FreeOk(p) { assert s.FreeOk(p); }
    forall h ensures t.HandleOk(h) { assert s.HandleOk(h) && s.IndexOk(h.index); }
    forall h ensures t.EndedOk(h) { assert s.EndedOk(h) && s.IndexOk(h.index); }
  }

  /** A despawned index freed, if it lies in the range. */
  ghost function Freed(s: TableState, index: nat): TableState {
    var t := s.(dying := s.dying - {index}, outside := s.outside - {index});
    if s.InRange(index)
    then t.(free := s.free + [Entity(index, NextGeneration(s.SlotAt(index).last))],
        freeAt := s.freeAt[index := |s.free|])
    else t
  }

  lemma FreedKeepsIndex(s: TableState, index: nat, i: nat)
    requires s.Coherent() && s.reserved == 0 && index in s.dying
    ensures Freed(s, index).IndexOk(i)
  {
    assert s.IndexOk(index) && s.IndexOk(i);
  }

  lemma FreedKeepsCoherent(s: TableState, index: nat)
    requires s.Coherent() && s.reserved == 0 && index in s.dying
    ensures Freed(s, index).Coherent()
  {
    var t := Freed(s, index);
    assert s.IndexOk(index);
    forall i: nat ensures t.IndexOk(i) { FreedKeepsIndex(s, index, i); }
    forall p: nat ensures t.FreeOk(p) { assert s.FreeOk(p); }
    forall h ensures t.HandleOk(h) { assert s.HandleOk(h) && s.IndexOk(h.index); }
    forall h ensures t.EndedOk(h) { assert s.EndedOk(h); }
  }

  lemma ReservedAnswer(s: TableState, e: Entity)
    requires s.Coherent()
    requires e == if s.reserved < |s.free| then s.free[|s.free| - 1 - s.reserved]
                  else if s.nextFresh + s.reserved - |s.free| > s.last then NO_ENTITY
                  else Entity(s.nextFresh + s.reserved - |s.free|, 1)
    ensures e == NO_ENTITY <==> s.Kept() == 0 && s.HandedEnd() > s.last
    ensures s.Kept() > 0 ==> e == s.free[s.Kept() - 1]
    ensures s.Kept() == 0 && s.HandedEnd() <= s.last ==>
              e == Entity(s.HandedEnd(), 1) && s.HandedEnd() == s.nextFresh + s.reserved - |s.free|
  {
    if s.Kept() > 0 {
      assert s.FreeOk(s.Kept() - 1) && s.IndexOk(e.index);
    }
  }

  ghost function Masked(s: TableState, e: Entity, mask: set<nat>): TableState {
    s.(slots := s.slots[e.index := s.SlotAt(e.index).(mask := mask)])
  }

  lemma MaskedKeepsValid(s: TableState, e: Entity, mask: set<nat>)
    requires s.Valid() && s.Alive(e)
    ensures Masked(s, e, mask).Valid()
  {
    var t := Masked(s, e, mask);
    assert s.IndexOk(e.index);
    forall i: nat ensures t.IndexOk(i) && t.DyingOk(i) { assert s.IndexOk(i) && s.DyingOk(i); }
    forall p: nat ensures t.FreeOk(p) && t.DespawnedOk(p) { assert s.FreeOk(p) && s.DespawnedOk(p); }
    forall h ensures t.HandleOk(h) && t.EndedOk(h) { assert s.HandleOk(h) && s.EndedOk(h); }
  }

  /** A despawned entity, listed until the window ends. */
  lemma ListedKeepsValid(s: TableState, ended: TableState, t: TableState, e: Entity)
    requires s.Valid() && s.observing && s.Alive(e) && ended == Ended(s, e) && ended.Coherent()
    requires t == ended.(despawned := s.despawned + [e.index],
                         outside := if s.InRange(e.index) then s.outside else s.outside + {e.index})
    ensures t.Valid()
  {
    assert s.IndexOk(e.index);
    forall i: nat ensures t.IndexOk(i) && t.DyingOk(i) { assert ended.IndexOk(i) && s.DyingOk(i); }
    forall p: nat ensures t.FreeOk(p) && t.DespawnedOk(p) { assert ended.FreeOk(p) && s.DespawnedOk(p); }
    forall h ensures t.HandleOk(h) && t.EndedOk(h) { assert ended.HandleOk(h) && ended.EndedOk(h); }
  }

  /** Settling with nothing reserved changes nothing. */
  lemma NothingToSettle(s: TableState)
    requires s.Coherent() && s.reserved == 0
    ensures Settled(s) == s
  {
    forall i | i in s.freeAt ensures s.freeAt[i] < s.Kept() { assert s.IndexOk(i); }
  }

  /** What a settle with reclaim does: every reservation never spawned is free
      again, its generation burned. */
  ghost predicate Reclaims(s: TableState, t: TableState)
    requires s.Shape()
  {
    && t.free == s.KeptFree() + s.TakenBackOf(s.TakenCount()) && t.nextFresh == s.HandedEnd()
    && t ==
          s.(slots := t.slots, free := t.free, reserved := 0, nextFresh := t.nextFresh, freeAt := t.freeAt,
              ended := t.ended)
    && (forall i: nat {:trigger t.SlotAt(i)} ::
          t.SlotAt(i) == if s.Pending(i) then s.SlotAt(i).(last := s.SlotAt(i).last + 1) else s.SlotAt(i))
    && (forall e {:trigger e in t.ended} :: e in t.ended <==>
          e in s.ended || (s.Pending(e.index) && e.generation == s.SlotAt(e.index).last + 1))
  }

  /** One index midway through a settle with reclaim: a reservation never
      spawned counts as lost until it is taken back. */
  ghost predicate Reclaiming(s: TableState, a: TableState, index: nat) {
    var x, y := s.SlotAt(index), a.SlotAt(index);
    if s.Pending(index) && index !in a.lost then y == x.(last := x.last + 1) && Entity(index, y.last) in a.ended
    else y == x && (index in a.lost <==> index in s.lost || s.Pending(index))
  }

  ghost predicate ReclaimingEnded(s: TableState, a: TableState, e: Entity) {
    && (e in s.ended ==> e in a.ended)
    && (e in a.ended ==> e in s.ended || (s.Pending(e.index) && e.generation == s.SlotAt(e.index).last + 1))
  }

  ghost predicate Midway(s: TableState, a: TableState) {
    && s.Coherent() && a.Coherent()
    && a == Settled(s).(slots := a.slots, free := a.free, freeAt := a.freeAt, lost := a.lost, ended := a.ended)
    && (forall i: nat {:trigger Reclaiming(s, a, i)} :: Reclaiming(s, a, i))
    && (forall e {:trigger ReclaimingEnded(s, a, e)} :: ReclaimingEnded(s, a, e))
  }

  lemma SettledIsMidway(s: TableState)
    requires s.Coherent()
    ensures Midway(s, Settled(s))
    ensures forall i: nat | s.Pending(i) :: i in Settled(s).lost && !(i in s.freeAt && s.freeAt[i] < s.Kept())
  {
    SettledKeepsCoherent(s);
    forall i: nat | s.Pending(i)
      ensures i in Settled(s).lost && !(i in s.freeAt && s.freeAt[i] < s.Kept())
    {
      assert s.IndexOk(i);
    }
    forall i: nat ensures Reclaiming(s, Settled(s), i) { assert s.IndexOk(i); }
  }

  /** The reservation of e, taken and never spawned, taken back. */
  lemma TakenBackIsMidway(s: TableState, a: TableState, e: Entity)
    requires Midway(s, a) && s.Pending(e.index) && e.index in a.lost && e.generation == s.SlotAt(e.index).last + 1
    ensures Midway(s, TakenBack(a, e))
  {
    var b := TakenBack(a, e);
    assert Reclaiming(s, a, e.index);
    TakenBackKeepsCoherent(a, e);
    forall i: nat ensures Reclaiming(s, b, i) { assert Reclaiming(s, a, i); }
    forall h ensures ReclaimingEnded(s, b, h) { assert ReclaimingEnded(s, a, h); }
  }

  lemma MidwayReclaims(s: TableState, a: TableState)
    requires Midway(s, a) && a.free == s.KeptFree() + s.TakenBackOf(s.TakenCount())
    requires forall i: nat | s.Pending(i) :: i !in a.lost
    ensures Reclaims(s, a)
  {
    forall i: nat ensures i in a.lost <==> i in s.lost
      ensures a.SlotAt(i) == if s.Pending(i) then s.SlotAt(i).(last := s.SlotAt(i).last + 1) else s.SlotAt(i)
    {
      assert Reclaiming(s, a, i) && s.IndexOk(i);
    }
    forall e ensures e in a.ended <==>
      e in s.ended || (s.Pending(e.index) && e.generation == s.SlotAt(e.index).last + 1)
    {
      assert ReclaimingEnded(s, a, e) && Reclaiming(s, a, e.index);
    }
  }

  /** What the settle finds at a taken entity: spawned since, or lost. */
  lemma TakenIsLostOrSpawned(s: TableState, a: TableState, e: Entity)
    requires Midway(s, a) && s.Taken(e.index) && e.generation == s.HandedGeneration(e.index)
    requires s.Pending(e.index) ==> e.index in a.lost
    ensures s.Pending(e.index) <==> a.SlotAt(e.index).last != e.generation
  {
    assert Reclaiming(s, a, e.index) && s.IndexOk(e.index);
  }

  /** Records e's generation as handed out at its index, and whether e was
      never spawned. */
  function Burn(slots: map<nat, Slot>, e: Entity): (burned: (map<nat, Slot>, bool)) {
    var slot := if e.index in slots then slots[e.index] else Slot(0, 0, {});
    if slot.last == e.generation then (slots, false)
    else (slots[e.index := slot.(last := e.generation)], true)
  }

  /** The first k taken entities are back, those never spawned. */
  ghost predicate TakesBack(s: TableState, a: TableState, k: int) {
    Midway(s, a) && k >= 0 && a.free == s.KeptFree() + s.TakenBackOf(k)
  }

  /** What the settle does when it comes to e: spawned since, or back. */
  lemma ComesTo(s: TableState, a: TableState, k: nat, e: Entity) returns (b: TableState)
    requires TakesBack(s, a, k) && e == s.TakenAt(k)
    requires s.Taken(e.index) && e.generation == s.HandedGeneration(e.index)
    requires s.Pending(e.index) ==> e.index in a.lost
    ensures s.Pending(e.index) <==> a.SlotAt(e.index).last != e.generation
    ensures TakesBack(s, b, k + 1) && b == if s.Pending(e.index) then TakenBack(a, e) else a
  {
    TakenIsLostOrSpawned(s, a, e);
    b := a;
    if s.Pending(e.index) {
      TakenBackIsMidway(s, a, e);
      b := TakenBack(a, e);
    }
  }

  /** The reservations lost when the settle comes to place p of the free list. */
  ghost predicate LostFrom(s: TableState, a: TableState, p: nat) {
    forall i: nat {:trigger i in a.lost} | s.Pending(i) :: i in a.lost <==> !(i in s.freeAt && s.freeAt[i] < p)
  }

  /** Those lost when it comes to fresh index first. */
  ghost predicate LostFromFresh(s: TableState, a: TableState, first: nat) {
    forall i: nat {:trigger i in a.lost} | s.Pending(i) :: i in a.lost <==> i !in s.freeAt && i >= first
  }

  lemma SettleStarts(s: TableState)
    requires s.Coherent()
    ensures TakesBack(s, Settled(s), 0) && LostFrom(s, Settled(s), s.Kept())
  {
    SettledIsMidway(s);
  }

  lemma FreeIsDone(s: TableState, a: TableState)
    requires s.Coherent() && LostFrom(s, a, |s.free|)
    ensures LostFromFresh(s, a, s.nextFresh)
  {
    forall i: nat | s.Pending(i) ensures i in a.lost <==> i !in s.freeAt && i >= s.nextFresh { assert s.IndexOk(i); }
  }

  lemma ComesToFree(s: TableState, a: TableState, p: nat) returns (b: TableState)
    requires s.Kept() <= p < |s.free| && TakesBack(s, a, p - s.Kept()) && LostFrom(s, a, p)
    ensures s.Pending(s.free[p].index) <==> a.SlotAt(s.free[p].index).last != s.free[p].generation
    ensures TakesBack(s, b, p + 1 - s.Kept()) && LostFrom(s, b, p + 1)
    ensures b == if s.Pending(s.free[p].index) then TakenBack(a, s.free[p]) else a
  {
    var e := s.free[p];
    assert s.FreeOk(p) && s.IndexOk(e.index);
    b := ComesTo(s, a, p - s.Kept(), e);
    forall i: nat | s.Pending(i) ensures i in b.lost <==> !(i in s.freeAt && s.freeAt[i] < p + 1) {
      assert s.IndexOk(i);
    }
  }

  /** Takes back the reserved entities of the free list, compacting it in
      place. */
  method ReclaimFree(s: TableState) returns (slots: map<nat, Slot>, free: seq<Entity>, ghost a: TableState)
    requires s.Coherent()
    ensures TakesBack(s, a, |s.free| - s.Kept()) && LostFromFresh(s, a, s.nextFresh)
    ensures a.slots == slots && a.free == free
  {
    var freeCount := |s.free|;
    var kept := s.Kept();
    slots, free := s.slots, s.free;
    a := Settled(s);
    SettleStarts(s);
    for p := kept to freeCount
      invariant TakesBack(s, a, p - s.Kept()) && LostFrom(s, a, p) && a.slots == slots
      invariant 0 <= kept <= p <= freeCount == |free| && a.free == free[..kept] && free[p..] == s.free[p..]
    {
      var reserved := free[p];
      assert reserved == free[p..][0] == s.free[p];
      ghost var b := ComesToFree(s, a, p);
      var (after, unspawned) := Burn(slots, reserved);
      if unspawned {
        free := free[kept := Entity(reserved.index, NextGeneration(reserved.generation))];
        kept := kept + 1;
        slots := after;
      }
      a := b;
    }
    FreeIsDone(s, a);
    free := free[..kept];
  }

  lemma ComesToFresh(s: TableState, a: TableState, index: nat) returns (b: TableState)
    requires s.Coherent() && s.nextFresh <= index < s.HandedEnd() && LostFromFresh(s, a, index)
    requires TakesBack(s, a, |s.free| - s.Kept() + index - s.nextFresh)
    ensures s.Pending(index) <==> a.SlotAt(index).last != 1
    ensures TakesBack(s, b, |s.free| - s.Kept() + index + 1 - s.nextFresh) && LostFromFresh(s, b, index + 1)
    ensures b == if s.Pending(index) then TakenBack(a, Entity(index, 1)) else a
  {
    assert s.IndexOk(index);
    b := ComesTo(s, a, |s.free| - s.Kept() + index - s.nextFresh, Entity(index, 1));
  }

  /** Takes back the reserved fresh indices, from where the free list was left. */
  method ReclaimFresh(s: TableState, slots0: map<nat, Slot>, free0: seq<Entity>, ghost a0: TableState)
    returns (slots: map<nat, Slot>, free: seq<Entity>, ghost a: TableState)
    requires TakesBack(s, a0, |s.free| - s.Kept()) && a0.slots == slots0 && a0.free == free0
    requires LostFromFresh(s, a0, s.nextFresh)
    ensures TakesBack(s, a, s.TakenCount()) && a.slots == slots && a.free == free
    ensures forall i: nat | s.Pending(i) :: i !in a.lost
  {
    slots, free, a := slots0, free0, a0;
    for index := s.nextFresh to s.HandedEnd()
      invariant TakesBack(s, a, |s.free| - s.Kept() + index - s.nextFresh) && LostFromFresh(s, a, index)
      invariant a.slots == slots && a.free == free
    {
      ghost var b := ComesToFresh(s, a, index);
      var (after, unspawned) := Burn(slots, Entity(index, 1));
      if unspawned {
        free := free + [Entity(index, NextGeneration(1))];
        slots := after;
      }
      a := b;
    }
  }

  class EntityTable {
    /** Every field of the table, in one record. */
    var t: TableState

    ghost predicate Valid()
      reads this
    {
      t.Valid()
    }

    /** A table of the range first to last. Preparing room changes nothing. */
    constructor (first: nat, last: nat)
      requires first <= last
      ensures Valid() && !t.observing && t.slots == map[] && t.dying == map[]
      ensures t.first == first && t.last == last && t.handedOut == {} && t.ended == {} && t.lost == {}
    {
      t := TableState(first, last, map[], [], 0, first, false, [], {}, map[], map[], {}, {}, {});
    }

    predicate Alive(e: Entity)
      reads this
    {
      t.Alive(e)
    }

    /** The components e has, or none if it is not alive. */
    function Mask(e: Entity): (mask: Option<set<nat>>)
      reads this
      ensures mask.Some? <==> Alive(e)
    {
      if t.Alive(e) then Some(t.SlotAt(e.index).mask) else None
    }

    method SetComponent(e: Entity, id: nat)
      requires Valid() && Alive(e)
      modifies this
      ensures Valid()
      ensures t ==
              old(t).(slots :=
                  old(t).slots[e.index := old(t).SlotAt(e.index).(mask := old(t).SlotAt(e.index).mask + {id})])
    {
      MaskedKeepsValid(t, e, t.SlotAt(e.index).mask + {id});
      t := t.(slots := t.slots[e.index := t.SlotAt(e.index).(mask := t.SlotAt(e.index).mask + {id})]);
    }

    method UnsetComponent(e: Entity, id: nat)
      requires Valid() && Alive(e)
      modifies this
      ensures Valid()
      ensures t ==
              old(t).(slots :=
                  old(t).slots[e.index := old(t).SlotAt(e.index).(mask := old(t).SlotAt(e.index).mask - {id})])
    {
      MaskedKeepsValid(t, e, t.SlotAt(e.index).mask - {id});
      t := t.(slots := t.slots[e.index := t.SlotAt(e.index).(mask := t.SlotAt(e.index).mask - {id})]);
    }

    /** Takes the next entity to hand out, NO_ENTITY once the range is used up.
        The count is raised in one atomic step, and nothing else the answer
        depends on changes meanwhile, so this is also what a reserve running
        beside others does. */
    method Reserve() returns (e: Entity)
      requires Valid()
      modifies this
      ensures Valid() && Reserves(old(t), t, e)
      ensures Answered(e) == old(t).Next()
      ensures SuppliesNext(old(t), t)
      ensures e == NO_ENTITY ==> t.handedOut == old(t.handedOut)
      ensures e != NO_ENTITY ==> e !in old(t.handedOut) && t.handedOut == old(t.handedOut) + {e}
      ensures e != NO_ENTITY ==> t.InRange(e.index) && MayLive(t, e) && e !in t.ended
    {
      ghost var s := t;
      var reservation := t.reserved;
      var freeCount := |t.free|;
      if reservation < freeCount {
        e := t.free[freeCount - 1 - reservation];
      } else {
        var index := t.nextFresh + reservation - freeCount;
        e := if index > t.last then NO_ENTITY else Entity(index, 1);
      }
      t := t.(reserved := reservation + 1, handedOut := if e == NO_ENTITY then t.handedOut else t.handedOut + {e});
      ReservedAnswer(s, e);
      ReservesKeepsCoherent(s, t, e);
      assert t.EndedOk(e);
      forall i: nat ensures t.DyingOk(i) { assert s.DyingOk(i); }
      forall p: nat ensures t.DespawnedOk(p) { assert s.DespawnedOk(p); }
    }

    /** Makes e alive at its index and generation. */
    method SetAlive(e: Entity)
      requires Valid()
      modifies this
      ensures t == MadeAlive(old(t), e) && (MayLive(old(t), e) ==> Valid())
    {
      ghost var s := t;
      t := t.(slots := t.slots[e.index := t.SlotAt(e.index).(live := e.generation, last := e.generation)],
              lost := t.lost - {e.index});
      if MayLive(s, e) {
        MadeAliveKeepsCoherent(s, e);
        forall i: nat ensures t.DyingOk(i) { assert s.DyingOk(i); }
        forall p: nat ensures t.DespawnedOk(p) { assert s.DespawnedOk(p); }
      }
    }

    /** SettleReservations of a table that keeps its window. */
    method SettleWithoutReclaim()
      requires Valid()
      modifies this
      ensures Valid() && t == Settled(old(t))
    {
      ghost var s := t;
      SettleReservations(false);
      forall i: nat ensures t.DyingOk(i) { assert s.DyingOk(i); }
      forall p: nat ensures t.DespawnedOk(p) { assert s.DespawnedOk(p); }
    }

    /** Makes the next entity alive, with no components. */
    method Spawn() returns (e: Entity)
      requires Valid()
      modifies this
      ensures Valid() && t.observing == old(t.observing) && t.dying == old(t.dying) && t.ended == old(t.ended)
      ensures t.first == old(t.first) && t.last == old(t.last)
      ensures Answered(e) == old(t).Next()
      ensures SuppliesNext(old(t), t)
      ensures if t.observing then Counts(t, old(t).free, old(t).reserved + 1, old(t).nextFresh)
              else Counts(t, old(t).KeptFree(), 1, old(t).HandedEnd())
      ensures e == NO_ENTITY ==> t.handedOut == old(t.handedOut) && t.slots == old(t.slots)
      ensures e != NO_ENTITY ==>
                && t.InRange(e.index) && e !in old(t.handedOut) && t.handedOut == old(t.handedOut) + {e}
                && old(t.SlotAt(e.index)).live == 0 && e.generation > 0 && e !in t.ended && e.index !in t.dying
                && e.generation == old(t.SlotAt(e.index)).last + 1
                && t.slots == old(t.slots)[e.index := Slot(e.generation, e.generation, {})]
      ensures t.observing ==> t.lost <= old(t.lost)
    {
      if !t.observing {
        SettleWithoutReclaim();
      }
      e := Reserve();
      if e != NO_ENTITY {
        assert t.IndexOk(e.index);
        SetAlive(e);
      }
    }

    /** Makes reserved entity e alive, if it was not spawned yet. The table
        tells by generation alone, and stays sound exactly if that tells true. */
    method SpawnReserved(e: Entity) returns (spawned: bool)
      requires Valid()
      modifies this
      ensures Valid() <==> (old(t).LooksReserved(e) ==> MayLive(old(t), e))
      ensures t.observing == old(t.observing) && t.dying == old(t.dying) && t.ended == old(t.ended)
      ensures t.handedOut == old(t.handedOut) && t.lost <= old(t.lost)
      ensures t.first == old(t.first) && t.last == old(t.last)
      ensures SameSupply(old(t), t)
      ensures spawned <==> old(t).LooksReserved(e)
      ensures spawned ==> e !in t.ended && t.slots == old(t.slots)[e.index := Slot(e.generation, e.generation, {})]
      ensures !spawned ==> t == old(t)
      ensures old(t).LooksReserved(e) && e in t.handedOut ==> MayLive(old(t), e)
    {
      assert t.IndexOk(e.index) && t.EndedOk(e);
      if t.SlotAt(e.index).live != 0 || e.generation != NextGeneration(t.SlotAt(e.index).last) {
        return false;
      }
      MayLiveIff(t, e);
      SetAlive(e);
      return true;
    }

    /** Makes e alive at its index and generation, outside the range, unless one
        is alive there or was despawned there this window. */
    method Place(e: Entity) returns (placed: bool)
      requires Valid()
      modifies this
      ensures Valid() && t.observing == old(t.observing) && t.dying == old(t.dying) && t.ended == old(t.ended)
      ensures t.handedOut == old(t.handedOut) && t.lost == old(t.lost)
      ensures t.first == old(t.first) && t.last == old(t.last)
      ensures SameSupply(old(t), t)
      ensures placed <==> old(t).MayPlace(e)
      ensures placed ==> t.slots == old(t.slots)[e.index := Slot(e.generation, e.generation, {})]
      ensures !placed ==> t == old(t)
    {
      assert t.IndexOk(e.index) && t.DyingOk(e.index);
      if e.generation == 0 || t.InRange(e.index) || t.SlotAt(e.index).live != 0 || e.index in t.outside {
        return false;
      }
      SetAlive(e);
      return true;
    }

    /** Ends e, and answers the components it had. Its index is freed at once,
        or at the end of the window if the table observes. */
    method Despawn(e: Entity) returns (mask: Option<set<nat>>)
      requires Valid()
      modifies this
      ensures Valid() && t.observing == old(t.observing) && t.handedOut == old(t.handedOut)
      ensures t.first == old(t.first) && t.last == old(t.last)
      ensures mask == old(Mask(e))
      ensures mask.None? ==> t == old(t)
      ensures mask.Some? ==>
                && t.slots == old(t.slots)[e.index := Slot(0, e.generation, {})]
                && t.ended == (if t.InRange(e.index) then old(t.ended) + {e} else old(t.ended))
                && t.dying.Keys == (if t.observing then old(t.dying.Keys) + {e.index} else {})
      ensures mask.Some? ==> Frees(old(t), t, e)
      ensures t.observing ==> t.lost == old(t.lost)
    {
      var slot := t.SlotAt(e.index);
      if slot.live != e.generation || slot.live == 0 {
        return None;
      }
      ghost var s := t;
      assert s.IndexOk(e.index);
      EndedKeepsCoherent(t, e);
      t := t.(slots := t.slots[e.index := slot.(mask := {}, live := 0)],
              dying := t.dying[e.index := |t.despawned|],
              ended := if t.InRange(e.index) then t.ended + {e} else t.ended);
      ghost var ended := t;
      if t.observing {
        t := t.(despawned := t.despawned + [e.index],
                outside := if t.InRange(e.index) then t.outside else t.outside + {e.index});
        ListedKeepsValid(s, ended, t, e);
      } else {
        forall i: nat ensures i !in s.dying { assert s.DyingOk(i); }
        SettleReservations(false);
        Free(e.index);
        forall i: nat ensures t.DyingOk(i) { }
      }
      return Some(slot.mask);
    }

    /** Folds the reservations taken since they were last settled into the free
        list and nextFresh. With reclaim, one never spawned goes back on the
        free list with its generation burned; without, its index is lost. */
    method SettleReservations(reclaim: bool)
      requires t.Coherent()
      modifies this
      ensures t.Coherent()
      ensures if reclaim then Reclaims(old(t), t) else t == Settled(old(t))
    {
      ghost var s := t;
      SettledKeepsCoherent(s);
      if t.reserved == 0 {
        NothingToSettle(s);
        SettledIsMidway(s);
        if reclaim {
          MidwayReclaims(s, s);
        }
        return;
      }
      if reclaim {
        var slots, free;
        ghost var a;
        slots, free, a := ReclaimFree(t);
        slots, free, a := ReclaimFresh(t, slots, free, a);
        MidwayReclaims(s, a);
        t := t.(slots := slots, free := free, reserved := 0, nextFresh := t.HandedEnd(),
                freeAt := a.freeAt, lost := a.lost, ended := a.ended);
      } else {
        t := t.(free := t.free[..t.Kept()], reserved := 0, nextFresh := t.HandedEnd(),
                freeAt := map i | i in t.freeAt && t.freeAt[i] < t.Kept() :: t.freeAt[i],
                lost := t.lost + set i: nat | t.first <= i < t.HandedEnd() && t.Pending(i));
      }
    }

    /** A dying index no longer dies: if it is of the range, another entity of it is
        the next to be handed out. */
    method Free(index: nat)
      requires t.Coherent() && t.reserved == 0 && index in t.dying
      modifies this
      ensures t.Coherent() && t == Freed(old(t), index)
    {
      FreedKeepsCoherent(t, index);
      if t.InRange(index) {
        t := t.(free := t.free + [Entity(index, NextGeneration(t.SlotAt(index).last))],
                freeAt := t.freeAt[index := |t.free|]);
      }
      t := t.(dying := t.dying - {index}, outside := t.outside - {index});
    }

    /** From here on nothing is reserved and nothing dies. A table that did not
        observe starts to, and loses what was reserved; one that did loses none. */
    method EndWindow() returns (started: bool)
      requires Valid()
      modifies this
      ensures Valid() && started == !old(t.observing) && t.observing && t.reserved == 0
      ensures t.first == old(t.first) && t.last == old(t.last) && t.handedOut == old(t.handedOut)
      ensures t.dying == map[] && t.despawned == []
      ensures t.free == old(t).FreeAfterWindow() && t.nextFresh == old(t).HandedEnd()
      ensures !started ==> t.lost == old(t.lost)
      ensures old(t.ended) <= t.ended && LastsGrow(old(t), t)
      ensures forall i: nat {:trigger t.SlotAt(i)} :: t.SlotAt(i) == old(t).SlotAfterWindow(i)
      ensures !started ==> forall e {:trigger e in t.ended} :: e in t.ended <==>
                e in old(t.ended) || (old(t).Pending(e.index) && e.generation == old(t).SlotAt(e.index).last + 1)
    {
      ghost var s := t;
      if !t.observing {
        SettleReservations(false);
        forall i: nat ensures i !in s.dying { assert s.DyingOk(i); }
        ObservingKeepsValid(t);
        t := t.(observing := true);
        return true;
      }
      SettleReservations(true);
      ghost var r := t;
      forall i: nat ensures r.DyingOk(i) { assert s.DyingOk(i); }
      forall p: nat ensures r.DespawnedOk(p) { assert s.DespawnedOk(p); }
      FreeDespawned();
      forall k | 0 <= k < |s.despawned| ensures s.despawned[k] in s.dying { assert s.DespawnedOk(k); }
      SameFreed(s, r, s.despawned);
      forall i: nat ensures t.SlotAt(i) == s.SlotAfterWindow(i) {
        assert t.SlotAt(i) == r.SlotAt(i);
      }
      return false;
    }

    /** Frees the window's despawned indices, in despawn order. */
    method FreeDespawned()
      requires Valid() && t.observing && t.reserved == 0
      modifies this
      ensures Valid() && t.free == old(t).free + old(t).FreedOf(old(t).despawned)
      ensures t == old(t).(free := t.free, freeAt := t.freeAt, dying := map[], despawned := [], outside := {})
    {
      ghost var r := t;
      for k := 0 to |t.despawned|
        invariant t.Coherent()
        invariant t == r.(free := t.free, freeAt := t.freeAt, dying := t.dying, outside := t.outside)
        invariant t.free == r.free + r.FreedOf(r.despawned[..k])
        invariant forall i: nat | i in t.dying :: i in r.dying && r.dying[i] >= k
        invariant forall i: nat | i in r.dying && r.dying[i] >= k :: i in t.dying
      {
        assert r.DespawnedOk(k) && r.despawned[..k + 1][..k] == r.despawned[..k];
        Free(t.despawned[k]);
        forall i: nat | i in t.dying ensures r.dying[i] >= k + 1 {
          assert r.DyingOk(i);
        }
      }
      forall i: nat ensures i !in t.dying { assert r.DyingOk(i); }
      assert r.despawned[..|r.despawned|] == r.despawned;
      NoneDyingKeepsValid(t);
      t := t.(despawned := []);
    }
  }

  /** What is taken back is not among those despawned, so it changes nothing for them. */
  lemma {:induction false} SameFreed(s: TableState, r: TableState, indices: seq<nat>)
    requires s.Coherent() && r.first == s.first && r.last == s.last
    requires forall i: nat {:trigger r.SlotAt(i)} :: s.Pending(i) || r.SlotAt(i) == s.SlotAt(i)
    requires forall k | 0 <= k < |indices| :: indices[k] in s.dying
    ensures r.FreedOf(indices) == s.FreedOf(indices)
  {
    if indices != [] {
      var index := indices[|indices| - 1];
      assert s.IndexOk(index);
      SameFreed(s, r, indices[..|indices| - 1]);
    }
  }

  lemma NoneDyingKeepsValid(s: TableState)
    requires s.Coherent() && s.observing && s.dying == map[]
    ensures s.(despawned := []).Valid()
  {
    var t := s.(despawned := []);
    forall i: nat ensures t.IndexOk(i) { assert s.IndexOk(i); }
    forall p: nat ensures t.FreeOk(p) { assert s.FreeOk(p); }
    forall h ensures t.HandleOk(h) && t.EndedOk(h) { assert s.HandleOk(h) && s.EndedOk(h); }
  }

  lemma ObservingKeepsValid(s: TableState)
    requires s.Coherent() && !s.observing && s.dying == map[]
    ensures s.(observing := true).Valid()
  {
    var t := s.(observing := true);
    forall i: nat ensures t.IndexOk(i) { assert s.IndexOk(i); }
    forall p: nat ensures t.FreeOk(p) { assert s.FreeOk(p); }
    forall h ensures t.HandleOk(h) && t.EndedOk(h) { assert s.HandleOk(h) && s.EndedOk(h); }
  }

  /** How many times the free list holds index. */
  ghost function FreeCount(s: TableState, index: nat): nat {
    |set p | 0 <= p < |s.free| && s.free[p].index == index|
  }

  /** Conservation: with a window just ended, each index handed out is exactly
      one of live, on the free list once, and lost. */
  lemma IndicesAreConserved(s: TableState, index: nat)
    requires s.Valid() && s.reserved == 0 && s.dying == map[]
    requires s.first <= index < s.nextFresh
    ensures Count(s.SlotAt(index).live != 0) + FreeCount(s, index) + Count(index in s.lost) == 1
  {
    assert s.IndexOk(index);
    var places := set p | 0 <= p < |s.free| && s.free[p].index == index;
    forall p | p in places ensures index in s.freeAt && p == s.freeAt[index] {
      assert s.FreeOk(p);
    }
    if index in s.freeAt {
      assert places == {s.freeAt[index]};
    } else {
      assert places == {};
    }
  }

  /** What a world asks of its table. OpSpawnReserved spawns the entity that
      operation at handed out. */
  datatype TableOp =
    | OpReserve | OpSpawn | OpSpawnReserved(at: nat) | OpPlace(e: Entity) | OpDespawn(e: Entity) | OpEndWindow

  /** Only answer, if there is one, came alive. */
  ghost predicate MakesAlive(s: TableState, t: TableState, answer: Option<Entity>) {
    t.slots == if answer.Some? then s.slots[answer.value.index :=
                                             Slot(answer.value.generation, answer.value.generation, {})] else s.slots
  }

  /** op answers what it should, and does that to the table. asked is the entity
      OpSpawnReserved is to spawn, if any. */
  ghost predicate Acts(op: TableOp, asked: Option<Entity>, answer: Option<Entity>, s: TableState, t: TableState)
    requires s.Shape()
  {
    match op
    case OpReserve =>
      && answer == s.Next() && t.slots == s.slots
      && SuppliesNext(s, t) && Counts(t, s.free, s.reserved + 1, s.nextFresh)
    case OpSpawn =>
      && answer == s.Next() && MakesAlive(s, t, answer) && SuppliesNext(s, t)
      && if s.observing then Counts(t, s.free, s.reserved + 1, s.nextFresh)
         else Counts(t, s.KeptFree(), 1, s.HandedEnd())
    case OpSpawnReserved(_) =>
      && answer == (if asked.Some? && s.LooksReserved(asked.value) then asked else None)
      && MakesAlive(s, t, answer) && SameSupply(s, t)
    case OpPlace(e) =>
      answer == (if s.MayPlace(e) then Some(e) else None) && MakesAlive(s, t, answer) && SameSupply(s, t)
    case OpDespawn(e) =>
      if s.Alive(e) then answer == Some(e) && t.slots == s.slots[e.index := Slot(0, e.generation, {})] && Frees(s, t, e)
      else answer == None && t == s
    case OpEndWindow =>
      && answer == None && t.observing && t.dying == map[] && t.despawned == []
      && Counts(t, s.FreeAfterWindow(), 0, s.HandedEnd())
      && forall i: nat {:trigger t.SlotAt(i)} :: t.SlotAt(i) == s.SlotAfterWindow(i)
  }

  /** The k-th of the indices despawned is freed behind those before it. */
  lemma {:induction false} FreedAt(s: TableState, indices: seq<nat>, k: nat)
    requires k < |indices| && s.InRange(indices[k])
    ensures var place := |s.FreedOf(indices[..k])|;
            && place < |s.FreedOf(indices)|
            && s.FreedOf(indices)[place] == Entity(indices[k], NextGeneration(s.SlotAt(indices[k]).last))
  {
    var front := indices[..|indices| - 1];
    if k < |front| {
      FreedAt(s, front, k);
      assert front[..k] == indices[..k];
    }
  }

  /** And the k-th entity taken, if it was never spawned, behind those before it. */
  lemma {:induction false} TakenBackAt(s: TableState, n: nat, k: nat)
    requires k < n && s.Pending(s.TakenAt(k).index)
    ensures var place := |s.TakenBackOf(k)|;
            && place < |s.TakenBackOf(n)|
            && s.TakenBackOf(n)[place] == Entity(s.TakenAt(k).index, NextGeneration(s.TakenAt(k).generation))
  {
    if k < n - 1 {
      TakenBackAt(s, n - 1, k);
    }
  }

  /** So once a window ends, what its last despawn freed is the first handed out. */
  lemma LastDespawnedIsNext(s: TableState, t: TableState)
    requires s.Valid() && s.observing && s.despawned != [] && t.Valid()
    requires Acts(OpEndWindow, None, None, s, t) && s.InRange(s.despawned[|s.despawned| - 1])
    ensures var index := s.despawned[|s.despawned| - 1];
            t.Next() == Some(Entity(index, NextGeneration(s.SlotAt(index).last)))
  {
    FreedAt(s, s.despawned, |s.despawned| - 1);
    assert s.despawned[..|s.despawned|] == s.despawned;
  }

  /** What a run did: its operations, what each answered, and the table before
      and after each. */
  datatype TableRun = TableRun(ops: seq<TableOp>, answers: seq<Option<Entity>>, states: seq<TableState>) {
    ghost predicate Shape() {
      |answers| == |ops| && |states| == |ops| + 1
    }

    /** What operation k handed out. */
    ghost function Handed(k: nat): Option<Entity>
      requires Shape()
    {
      if k < |ops| && (ops[k].OpReserve? || ops[k].OpSpawn?) then answers[k] else None
    }

    /** What op is to spawn as operation k, if it spawns a reservation. */
    ghost function Asked(op: TableOp, k: nat): Option<Entity>
      requires Shape() && k <= |ops|
    {
      if op.OpSpawnReserved? && op.at < k then Handed(op.at) else None
    }

    ghost predicate Did(k: nat)
      requires Shape()
    {
      k < |ops| ==> states[k].Valid() && Acts(ops[k], Asked(ops[k], k), answers[k], states[k], states[k + 1])
    }

    /** Nothing handed out before is handed out again. */
    ghost predicate HandsOutOnce(before: set<Entity>, k: nat)
      requires Shape()
    {
      Handed(k).Some? ==> Handed(k).value !in before && forall j | 0 <= j < k :: Handed(j) != Handed(k)
    }

    ghost predicate Went(before: set<Entity>) {
      && Shape()
      && (forall k: nat {:trigger Did(k)} :: Did(k))
      && (forall k: nat {:trigger HandsOutOnce(before, k)} :: HandsOutOnce(before, k))
    }

    ghost function Then(op: TableOp, answer: Option<Entity>, t: TableState): TableRun {
      TableRun(ops + [op], answers + [answer], states + [t])
    }

    /** One operation more. */
    lemma ThenWent(before: set<Entity>, op: TableOp, answer: Option<Entity>, t: TableState)
      requires Went(before) && states[|ops|].Valid()
      requires Acts(op, Asked(op, |ops|), answer, states[|ops|], t)
      requires (op.OpReserve? || op.OpSpawn?) && answer.Some? ==>
                 answer.value !in before && forall j: nat | j < |ops| :: Handed(j) != answer
      ensures var r := Then(op, answer, t);
              r.Went(before) && (forall j: nat | j < |ops| :: r.Handed(j) == Handed(j))
              && r.Handed(|ops|) == if op.OpReserve? || op.OpSpawn? then answer else None
    {
      var r := Then(op, answer, t);
      assert forall j: nat | j < |ops| :: r.Handed(j) == Handed(j);
      forall k: nat ensures r.Did(k) { assert Did(k); }
      forall k: nat ensures r.HandsOutOnce(before, k) { assert HandsOutOnce(before, k); }
    }
  }

  /** One operation. */
  method Step(table: EntityTable, op: TableOp, asked: Option<Entity>) returns (answer: Option<Entity>)
    requires table.Valid() && (asked.Some? ==> asked.value in table.t.handedOut)
    modifies table
    ensures table.Valid()
    ensures Acts(op, asked, answer, old(table.t), table.t)
    ensures (op.OpReserve? || op.OpSpawn?) && answer.Some? ==>
              answer.value !in old(table.t.handedOut) && answer.value in table.t.handedOut
    ensures old(table.t.handedOut) <= table.t.handedOut && old(table.t.ended) <= table.t.ended
    ensures old(table.t.observing) ==> table.t.observing && table.t.lost <= old(table.t.lost)
  {
    answer := None;
    match op {
      case OpReserve =>
        var e := table.Reserve();
        answer := Answered(e);
      case OpSpawn =>
        var e := table.Spawn();
        answer := Answered(e);
      case OpSpawnReserved(_) =>
        if asked.Some? {
          var spawned := table.SpawnReserved(asked.value);
          answer := if spawned then asked else None;
        }
      case OpPlace(e) =>
        var placed := table.Place(e);
        answer := if placed then Some(e) else None;
      case OpDespawn(e) =>
        var mask := table.Despawn(e);
        answer := if mask.Some? then Some(e) else None;
      case OpEndWindow =>
        var _ := table.EndWindow();
    }
  }

  /** Over any run each operation answers and does what it should, no entity is
      handed out twice, and no entity of the range that was despawned or taken
      back, before or during it, is alive after. */
  method Run(table: EntityTable, ops: seq<TableOp>) returns (answers: seq<Option<Entity>>, ghost run: TableRun)
    requires table.Valid()
    modifies table
    ensures table.Valid() && run.Went(old(table.t.handedOut)) && run.ops == ops && run.answers == answers
    ensures run.states[0] == old(table.t) && run.states[|ops|] == table.t
    ensures old(table.t.ended) <= table.t.ended
    ensures forall e | e in table.t.ended :: !table.Alive(e)
    ensures old(table.t.observing) ==> table.t.lost <= old(table.t.lost)
  {
    answers, run := [], TableRun([], [], [table.t]);
    ghost var before := table.t.handedOut;
    for i := 0 to |ops|
      invariant table.Valid() && run.Went(before) && run.ops == ops[..i] && run.answers == answers
      invariant run.states[0] == old(table.t) && run.states[i] == table.t
      invariant forall k: nat | k < i && run.Handed(k).Some? :: run.Handed(k).value in table.t.handedOut
      invariant before <= table.t.handedOut && old(table.t.ended) <= table.t.ended
      invariant old(table.t.observing) ==> table.t.observing && table.t.lost <= old(table.t.lost)
    {
      var asked := None;
      if ops[i].OpSpawnReserved? && ops[i].at < i && (ops[ops[i].at].OpReserve? || ops[ops[i].at].OpSpawn?) {
        asked := answers[ops[i].at];
      }
      assert asked == run.Asked(ops[i], i);
      var answer := Step(table, ops[i], asked);
      run.ThenWent(before, ops[i], answer, table.t);
      run := run.Then(ops[i], answer, table.t);
      answers := answers + [answer];
      assert ops[..i] + [ops[i]] == ops[..i + 1];
    }
    assert ops[..|ops|] == ops;
    forall e | e in table.t.ended ensures !table.Alive(e) {
      assert table.t.EndedOk(e);
    }
  }
}
