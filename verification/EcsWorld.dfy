/** A world: its entities and its stores, kept in step (ecs/world.go). */
module EcsWorld {
  import opened Basics
  import opened EcsEntity
  import opened EcsStoreState
  import opened EcsStore
  import opened EcsEntityTable

  /** A world's table and stores at one moment. A component's id is its store's
      place. */
  datatype WorldState<V> = WorldState(table: TableState, stores: seq<StoreState<V>>) {
    ghost predicate StoreOk(id: nat) {
      id < |stores| ==>
        && stores[id].Valid() && stores[id].AllLinked()
        && (stores[id].Observes() ==> table.observing)
    }

    /** A live entity has a component's bit in its mask exactly when the store
        has a live row for it. */
    ghost predicate MaskOk(id: nat, e: Entity) {
      id < |stores| ==>
        (e in stores[id].current <==> table.Alive(e) && id in table.SlotAt(e.index).mask)
    }

    /** A row's owner is alive or, in a world that observes, was despawned this
        window; either way it is the last entity its index held. */
    ghost predicate OwnerOk(id: nat, e: Entity) {
      id < |stores| && e in stores[id].held ==>
        && e.generation == table.SlotAt(e.index).last
        && (table.Alive(e) || (table.observing && e.index in table.dying))
    }

    ghost predicate MaskFits(index: nat, id: nat) {
      id in table.SlotAt(index).mask ==> id < |stores|
    }

    ghost predicate Valid() {
      && table.Valid()
      && (forall id: nat {:trigger StoreOk(id)} :: StoreOk(id))
      && (forall id: nat, e {:trigger MaskOk(id, e)} :: MaskOk(id, e))
      && (forall id: nat, e {:trigger OwnerOk(id, e)} :: OwnerOk(id, e))
      && (forall index: nat, id: nat {:trigger MaskFits(index, id)} :: MaskFits(index, id))
    }
  }

  /** The entities alive in t are those alive in s, but for the born and the
      gone. */
  ghost predicate AliveAfter(s: TableState, t: TableState, born: set<Entity>, gone: set<Entity>) {
    forall e {:trigger t.Alive(e)} :: t.Alive(e) <==> (s.Alive(e) && e !in gone) || e in born
  }

  /** e came alive, at the generation after the last its index held. */
  ghost predicate Born(s: TableState, t: TableState, e: Entity) {
    !s.Alive(e) && e.generation == s.SlotAt(e.index).last + 1 == t.SlotAt(e.index).last
  }

  /** No store ever holds rows, live or in the tail, of two entities with one
      index. */
  lemma OneOwnerPerIndex<V>(w: WorldState<V>, id: nat, a: Entity, b: Entity)
    requires w.Valid() && id < |w.stores| && a in w.stores[id].held && b in w.stores[id].held
    requires a.index == b.index
    ensures a == b
  {
    assert w.OwnerOk(id, a) && w.OwnerOk(id, b);
  }

  /** Every live row's owner is alive, and has the component's bit. */
  lemma LiveRowsBelongToTheLiving<V>(w: WorldState<V>, id: nat, row: nat)
    requires w.Valid() && id < |w.stores| && row < w.stores[id].live
    ensures row < |w.stores[id].owners|
    ensures var e := w.stores[id].owners[row]; w.table.Alive(e) && id in w.table.SlotAt(e.index).mask
  {
    var s := w.stores[id];
    assert w.StoreOk(id) && s.RowOk(row) && s.LiveOk(s.owners[row]) && w.MaskOk(id, s.owners[row]);
  }

  /** No store holds a row of an entity of index. */
  ghost predicate NoRows<V>(w: WorldState<V>, index: nat) {
    forall id: nat, o {:trigger w.OwnerOk(id, o)} :: id < |w.stores| && o in w.stores[id].held ==> o.index != index
  }

  /** An entity made alive where none was, and no row is left. */
  lemma SpawnKeepsValid<V>(w: WorldState<V>, t: TableState, e: Entity)
    requires w.Valid() && t.Valid() && t.observing == w.table.observing && t.dying == w.table.dying
    requires e.generation > 0 && w.table.SlotAt(e.index).live == 0 && e.index !in w.table.dying
    requires t.slots == w.table.slots[e.index := Slot(e.generation, e.generation, {})]
    ensures w.(table := t).Valid() && NoRows(w.(table := t), e.index)
  {
    var v := w.(table := t);
    forall id: nat ensures v.StoreOk(id) { assert w.StoreOk(id); }
    forall id: nat, o ensures v.MaskOk(id, o) { assert w.MaskOk(id, o) && w.MaskOk(id, e); }
    forall id: nat, o ensures v.OwnerOk(id, o) { assert w.OwnerOk(id, o); }
    forall id: nat, o | id < |w.stores| && o in w.stores[id].held ensures o.index != e.index {
      assert w.OwnerOk(id, o);
    }
    forall i: nat, id: nat ensures v.MaskFits(i, id) { assert w.MaskFits(i, id); }
  }

  /** The row and the mask bit of component id given to e, or taken from it. */
  ghost predicate GivesComponent<V>(w: WorldState<V>, v: WorldState<V>, id: nat, e: Entity, given: bool) {
    && id < |w.stores| == |v.stores| && w.table.Alive(e) && v.stores == w.stores[id := v.stores[id]]
    && v.table == Masked(w.table, e, MaskAfter(w.table.SlotAt(e.index).mask, id, given))
    && v.stores[id].current.Keys == (if given then w.stores[id].current.Keys + {e} else w.stores[id].current.Keys - {e})
    && v.stores[id].held.Keys <= w.stores[id].held.Keys + {e}
  }

  function MaskAfter(mask: set<nat>, id: nat, given: bool): set<nat> {
    if given then mask + {id} else mask - {id}
  }

  lemma ComponentKeepsEntity<V>(w: WorldState<V>, v: WorldState<V>, id: nat, e: Entity, given: bool, k: nat, o: Entity)
    requires w.Valid() && GivesComponent(w, v, id, e, given)
    ensures v.MaskOk(k, o) && v.OwnerOk(k, o)
  {
    assert w.table.IndexOk(e.index) && w.MaskOk(k, o) && w.OwnerOk(k, o);
  }

  /** A component given to e, or taken from it. */
  lemma ComponentKeepsValid<V>(w: WorldState<V>, v: WorldState<V>, id: nat, e: Entity, given: bool)
    requires w.Valid() && GivesComponent(w, v, id, e, given) && v.table.Valid()
    requires v.stores[id].Valid() && v.stores[id].AllLinked() && v.stores[id].observation == w.stores[id].observation
    ensures v.Valid()
  {
    forall k: nat ensures v.StoreOk(k) { assert w.StoreOk(k); }
    forall k: nat, o ensures v.MaskOk(k, o) { ComponentKeepsEntity(w, v, id, e, given, k, o); }
    forall k: nat, o ensures v.OwnerOk(k, o) { ComponentKeepsEntity(w, v, id, e, given, k, o); }
    forall i: nat, id: nat ensures v.MaskFits(i, id) { assert w.MaskFits(i, id); }
  }

  /** Whether e may be given a row in store id: the stores rely on the table
      withholding indices until the window ends. */
  lemma LivingCanAdd<V>(w: WorldState<V>, id: nat, e: Entity)
    requires w.Valid() && id < |w.stores| && w.table.Alive(e) && e !in w.stores[id].current
    ensures w.stores[id].CanAdd(e)
    ensures forall o | o in w.stores[id].held && o.index == e.index :: o == e
  {
    var s := w.stores[id];
    assert w.StoreOk(id) && w.table.IndexOk(e.index) && s.LinkOk(e.index) && s.LiveOk(e) && s.ContentOk(e);
    forall o | o in s.held && o.index == e.index ensures o == e { assert w.OwnerOk(id, o); }
    if e.index in s.links {
      var row := s.links[e.index];
      assert s.RowOk(row) && s.ContentOk(s.owners[row]) && s.LiveOk(s.owners[row]);
    }
    if e in s.rowOf {
      assert s.IsLinked(e);
    }
  }

  /** A despawned entity midway: its rows in the stores before next are gone,
      those from next on are still to remove. */
  ghost predicate Despawning<V>(w: WorldState<V>, v: WorldState<V>, e: Entity, next: nat) {
    && w.Valid() && w.table.Alive(e) && |v.stores| == |w.stores| && next <= |w.stores|
    && v.table.Valid() && v.table.observing == w.table.observing
    && v.table.slots == w.table.slots[e.index := Slot(0, e.generation, {})]
    && v.table.dying.Keys == (if w.table.observing then w.table.dying.Keys + {e.index} else {})
    && (forall id: nat {:trigger v.StoreOk(id)} :: v.StoreOk(id))
    && (forall id | next <= id < |w.stores| :: v.stores[id] == w.stores[id])
    && (forall id | 0 <= id < next :: StoreLost(w.stores[id], v.stores[id], e))
  }

  ghost predicate StoreLost<V>(s: StoreState<V>, t: StoreState<V>, e: Entity) {
    && t.current == s.current - {e} && t.observation == s.observation && t.baseline == s.baseline
    && t.held == if s.Observes() then s.held else s.held - {e}
  }

  lemma DespawnedKeepsValid<V>(w: WorldState<V>, v: WorldState<V>, e: Entity)
    requires Despawning(w, v, e, |w.stores|)
    ensures v.Valid()
  {
    assert w.table.IndexOk(e.index);
    forall id: nat, o ensures v.MaskOk(id, o) {
      assert w.MaskOk(id, o) && w.MaskOk(id, e);
    }
    forall id: nat, o ensures v.OwnerOk(id, o) {
      DespawnedKeepsOwners(w, v, e, id, o);
    }
    forall i: nat, id: nat ensures v.MaskFits(i, id) { assert w.MaskFits(i, id); }
  }

  lemma DespawnedKeepsOwners<V>(w: WorldState<V>, v: WorldState<V>, e: Entity, id: nat, o: Entity)
    requires Despawning(w, v, e, |w.stores|)
    ensures v.OwnerOk(id, o)
  {
    assert w.table.IndexOk(e.index) && w.OwnerOk(id, o) && w.StoreOk(id) && v.StoreOk(id);
    if id < |w.stores| && o in v.stores[id].held && !w.table.observing {
      assert StoreLost(w.stores[id], v.stores[id], e);
      assert !v.stores[id].Observes();
      assert v.stores[id].LiveOk(o) && v.stores[id].ContentOk(o) && w.MaskOk(id, o);
      assert w.table.DyingOk(o.index);
    }
  }

  /** Every row of a store that does not observe, or was just reset, is live. */
  lemma AllRowsLive<V>(s: StoreState<V>, e: Entity)
    requires s.Valid() && (!s.Observes() || s.held == s.current)
    ensures e in s.held ==> e in s.current
  {
    assert s.LiveOk(e) && s.ContentOk(e);
  }

  /** Without a live row there is none to lose, unless in the tail. */
  lemma NoRowToLose<V>(s: StoreState<V>, e: Entity)
    requires s.Valid() && e !in s.current
    ensures StoreLost(s, s, e)
  {
    assert s.current - {e} == s.current;
    if !s.Observes() {
      AllRowsLive(s, e);
      assert s.held - {e} == s.held;
    }
  }

  /** A window ended: no index is dying, and every row left is live. */
  lemma WindowEndKeepsValid<V>(w: WorldState<V>, v: WorldState<V>)
    requires w.Valid() && v.table.Valid() && |v.stores| == |w.stores| && v.table.observing
    requires forall i: nat {:trigger v.table.SlotAt(i)} :: v.table.SlotAt(i) == w.table.SlotAfterWindow(i)
    requires forall id: nat {:trigger v.StoreOk(id)} :: v.StoreOk(id)
    requires forall id | 0 <= id < |w.stores| ::
               && v.stores[id].current == w.stores[id].current
               && forall e {:trigger e in v.stores[id].held} | e in v.stores[id].held :: e in v.stores[id].current
    ensures v.Valid()
  {
    forall id: nat, e ensures v.MaskOk(id, e) {
      assert w.MaskOk(id, e) && v.table.SlotAt(e.index).live == w.table.SlotAt(e.index).live;
    }
    forall id: nat, e ensures v.OwnerOk(id, e) {
      assert w.MaskOk(id, e) && v.table.IndexOk(e.index)
             && v.table.SlotAt(e.index).live == w.table.SlotAt(e.index).live;
    }
    forall i: nat, id: nat ensures v.MaskFits(i, id) {
      assert w.MaskFits(i, id) && v.table.SlotAt(i).live == w.table.SlotAt(i).live;
    }
  }

  class World<V(==)> {
    const entities: EntityTable
    const stores: seq<Store<V>>

    ghost function State(): WorldState<V>
      reads entities, stores
    {
      WorldState(entities.t, seq(|stores|, id requires 0 <= id < |stores| reads stores => stores[id].rows))
    }

    ghost predicate Valid()
      reads entities, stores
    {
      State().Valid() && forall i, j | 0 <= i < j < |stores| :: stores[i] != stores[j]
    }

    /** A world of the range first to last, with componentCount components. */
    constructor (first: nat, last: nat, componentCount: nat)
      requires first <= last
      ensures Valid() && |stores| == componentCount
      ensures fresh(entities) && forall id | 0 <= id < |stores| :: fresh(stores[id])
      ensures !entities.t.observing && entities.t.slots == map[] && entities.t.first == first && entities.t.last == last
      ensures forall id | 0 <= id < |stores| ::
                stores[id].Current() == map[] && stores[id].Baseline() == map[] && stores[id].Held() == map[]
                    && stores[id].rows.observation == Unobserved
    {
      var table := new EntityTable(first, last);
      var made: seq<Store<V>> := [];
      for id := 0 to componentCount
        invariant |made| == id && table.Valid() && fresh(table)
        invariant !table.t.observing && table.t.slots == map[] && table.t.dying == map[]
        invariant table.t.first == first && table.t.last == last
        invariant forall k | 0 <= k < id :: fresh(made[k])
        invariant forall k | 0 <= k < id ::
          made[k].Valid() && made[k].AllLinked() && made[k].rows.observation == Unobserved
          && made[k].Current() == map[] && made[k].Held() == map[] && made[k].Baseline() == map[]
        invariant forall i, j | 0 <= i < j < id :: made[i] != made[j]
      {
        var store := new Store<V>();
        made := made + [store];
      }
      entities, stores := table, made;
    }

    /** Makes a new entity, with no components. */
    method Spawn() returns (e: Entity)
      requires Valid()
      modifies entities
      ensures Valid()
      ensures entities.t.observing == old(entities.t.observing)
      ensures LastsGrow(old(entities.t), entities.t)
      ensures Acts(OpSpawn, None, Answered(e), old(entities.t), entities.t)
      ensures e != NO_ENTITY ==>
                && e !in old(entities.t.handedOut) && e !in old(entities.t.ended)
                && entities.t.handedOut == old(entities.t.handedOut) + {e}
                && Born(old(entities.t), entities.t, e) && NoRows(State(), e.index)
      ensures e == NO_ENTITY ==> entities.t.handedOut == old(entities.t.handedOut)
      ensures AliveAfter(old(entities.t), entities.t, if e != NO_ENTITY then {e} else {}, {})
    {
      ghost var w := State();
      e := entities.Spawn();
      if e != NO_ENTITY {
        SpawnKeepsValid(w, entities.t, e);
      } else {
        SameSlotsKeepsValid(w, entities.t);
      }
      assert State() == w.(table := entities.t);
    }

    /** Reserves an entity, which is not alive until it is spawned. */
    method Reserve() returns (e: Entity)
      requires Valid()
      modifies entities
      ensures Valid()
      ensures entities.t.observing == old(entities.t.observing)
      ensures Acts(OpReserve, None, Answered(e), old(entities.t), entities.t)
      ensures e != NO_ENTITY ==>
                && e !in old(entities.t.handedOut) && !entities.Alive(e) && MayLive(entities.t, e)
                && entities.t.handedOut == old(entities.t.handedOut) + {e}
      ensures e == NO_ENTITY ==> entities.t.handedOut == old(entities.t.handedOut)
      ensures LastsGrow(old(entities.t), entities.t) && AliveAfter(old(entities.t), entities.t, {}, {})
    {
      ghost var w := State();
      e := entities.Reserve();
      SameSlotsKeepsValid(w, entities.t);
      assert State() == w.(table := entities.t);
    }

    /** Makes reserved entity e alive, if it was not spawned yet. The world
        stays sound exactly if what looks like a reservation may live. */
    method SpawnReserved(e: Entity) returns (spawned: bool)
      requires Valid()
      modifies entities
      ensures Valid() <==> (old(entities.t).LooksReserved(e) ==> MayLive(old(entities.t), e))
      ensures old(entities.t).LooksReserved(e) && e in old(entities.t.handedOut) ==> MayLive(old(entities.t), e)
      ensures entities.t.observing == old(entities.t.observing)
      ensures entities.t.handedOut == old(entities.t.handedOut) && LastsGrow(old(entities.t), entities.t)
      ensures spawned <==> old(entities.t).LooksReserved(e)
      ensures Acts(OpSpawnReserved(0), Some(e), if spawned then Some(e) else None, old(entities.t), entities.t)
      ensures spawned ==> Born(old(entities.t), entities.t, e)
      ensures spawned && Valid() ==> NoRows(State(), e.index)
      ensures AliveAfter(old(entities.t), entities.t, if spawned then {e} else {}, {})
    {
      ghost var w := State();
      spawned := entities.SpawnReserved(e);
      assert State() == w.(table := entities.t);
      if spawned && MayLive(w.table, e) {
        SpawnKeepsValid(w, entities.t, e);
      }
    }

    /** Makes e alive at its index and generation, outside the range. */
    method CreateAt(e: Entity) returns (placed: bool)
      requires Valid()
      modifies entities
      ensures Valid() && entities.t.observing == old(entities.t.observing)
      ensures entities.t.handedOut == old(entities.t.handedOut) && LastsGrow(old(entities.t), entities.t)
      ensures placed <==> old(entities.t).MayPlace(e)
      ensures Acts(OpPlace(e), None, if placed then Some(e) else None, old(entities.t), entities.t)
      ensures placed ==> NoRows(State(), e.index)
      ensures AliveAfter(old(entities.t), entities.t, if placed then {e} else {}, {})
    {
      ghost var w := State();
      placed := entities.Place(e);
      if placed {
        SpawnKeepsValid(w, entities.t, e);
      }
      assert State() == w.(table := entities.t);
    }

    /** Records that a delta query reads store id: it observes from the first
        reset on, or never, if that has passed. */
    method RegisterObserver(id: nat)
      requires Valid() && id < |stores|
      modifies stores[id]
      ensures Valid() && stores[id].Current() == old(stores[id].Current())
              && stores[id].Baseline() == old(stores[id].Baseline())
      ensures stores[id].Held() == old(stores[id].Held())
      ensures stores[id].rows.observation ==
                if old(stores[id].rows.observation) == Unobserved then ObserverWaiting
                    else old(stores[id].rows.observation)
    {
      ghost var w := State();
      assert w.StoreOk(id);
      stores[id].RegisterObserver();
      SetKeepsValid(w, id, stores[id].rows);
      assert State() == w.(stores := w.stores[id := stores[id].rows]);
    }

    /** Gives e, alive with no component id, a row in store id. */
    method AddRow(e: Entity, id: nat, memory: V, shadowMemory: V) returns (row: nat)
      requires Valid() && id < |stores| && entities.Alive(e) && e !in stores[id].Current()
      modifies entities, stores[id]
      ensures Valid() && PutsRow(old(stores[id].rows), stores[id].rows, e, row)
      ensures SameEntities(old(entities.t), entities.t)
    {
      ghost var w := State();
      assert w.StoreOk(id);
      LivingCanAdd(w, id, e);
      row := stores[id].Add(e, memory, shadowMemory);
      ghost var s := stores[id].rows;
      entities.SetComponent(e, id);
      assert State() == w.(table := entities.t, stores := w.stores[id := s]);
      ComponentKeepsValid(w, State(), id, e, true);
    }

    /** Finds e's row in store id for writing in place, marking it changed. */
    method Write(e: Entity, id: nat) returns (row: Option<nat>)
      requires Valid() && id < |stores|
      modifies stores[id]
      ensures Valid() && row.Some? == (e in old(stores[id].Current()))
      ensures stores[id].rows ==
              old(stores[id].rows).(states := stores[id].rows.states, changed := stores[id].rows.changed)
      ensures row.None? ==> stores[id].rows == old(stores[id].rows)
      ensures row.Some? ==> PutsRow(old(stores[id].rows), stores[id].rows, e, row.value)
      ensures row.Some? ==> stores[id].Current() == old(stores[id].Current())
      ensures MarksAt(old(stores[id].rows), stores[id].rows, e, true)
    {
      ghost var w := State();
      assert w.StoreOk(id);
      row := stores[id].Write(e);
      ghost var s := stores[id].rows;
      WrittenKeepsValid(w, id, s);
      assert State() == w.(stores := w.stores[id := s]);
      WritesRow(w.stores[id], s, e, row);
      WriteMarks(w.stores[id], s, e);
    }

    /** A write through the address of a row that Write or Put answered. */
    method SetValue(e: Entity, id: nat, row: nat, given: V)
      requires Valid() && id < |stores| && row < stores[id].rows.live
      requires row < |stores[id].rows.owners| && stores[id].rows.owners[row] == e && e in stores[id].Current()
      requires stores[id].rows.Observes() ==>
               row < |stores[id].rows.states| && stores[id].rows.states[row] != RowUnchanged
      modifies stores[id]
      ensures Valid() && stores[id].Current() == old(stores[id].Current())[e := given]
      ensures stores[id].Held() == old(stores[id].Held())[e := given]
      ensures stores[id].Baseline() == old(stores[id].Baseline())
      ensures stores[id].rows.observation == old(stores[id].rows.observation)
    {
      ghost var w := State();
      assert w.StoreOk(id) && w.stores[id].LiveOk(e);
      stores[id].SetValue(row, given);
      SetKeepsValid(w, id, stores[id].rows);
      assert State() == w.(stores := w.stores[id := stores[id].rows]);
    }

    /** Gives alive e a row in store id, or marks the one it has changed. */
    method Put(e: Entity, id: nat, memory: V, shadowMemory: V) returns (row: Option<nat>)
      requires Valid() && id < |stores|
      modifies entities, stores[id]
      ensures Valid() && SameEntities(old(entities.t), entities.t)
      ensures row.Some? <==> old(entities.Alive(e))
      ensures row.None? ==> entities.t == old(entities.t) && stores[id].rows == old(stores[id].rows)
      ensures row.Some? ==> PutsRow(old(stores[id].rows), stores[id].rows, e, row.value)
    {
      assert State().MaskOk(id, e);
      if !entities.Alive(e) {
        return None;
      }
      row := Write(e, id);
      if row.None? {
        var added := AddRow(e, id, memory, shadowMemory);
        row := Some(added);
      }
    }

    /** Gives e given as its component id, replacing the one it has. */
    method Add(e: Entity, id: nat, given: V, memory: V, shadowMemory: V) returns (added: bool)
      requires Valid() && id < |stores|
      modifies entities, stores[id]
      ensures Valid() && added == old(entities.Alive(e)) && SameEntities(old(entities.t), entities.t)
      ensures !added ==> entities.t == old(entities.t) && stores[id].rows == old(stores[id].rows)
      ensures added ==> stores[id].Current() == old(stores[id].Current())[e := given]
      ensures added ==> stores[id].Held() == old(stores[id].Held())[e := given]
      ensures stores[id].Baseline() == old(stores[id].Baseline())
      ensures stores[id].rows.observation == old(stores[id].rows.observation)
    {
      var row := Put(e, id, memory, shadowMemory);
      if row.Some? {
        SetValue(e, id, row.value, given);
      }
      return row.Some?;
    }

    /** Writes given through the address of e's component id, if it has one. */
    method Overwrite(e: Entity, id: nat, given: V) returns (written: bool)
      requires Valid() && id < |stores|
      modifies stores[id]
      ensures Valid() && written == (e in old(stores[id].Current()))
      ensures stores[id].Current() == if written then old(stores[id].Current())[e := given]
              else old(stores[id].Current())
      ensures stores[id].Held() == if written then old(stores[id].Held())[e := given] else old(stores[id].Held())
      ensures stores[id].Baseline() == old(stores[id].Baseline())
      ensures stores[id].rows.observation == old(stores[id].rows.observation)
    {
      var row := Write(e, id);
      if row.Some? {
        SetValue(e, id, row.value, given);
      }
      return row.Some?;
    }

    /** Removes e's component id, and reports whether it had one. */
    method Remove(e: Entity, id: nat) returns (removed: bool)
      requires Valid() && id < |stores|
      modifies entities, stores[id]
      ensures Valid() && removed == (e in old(stores[id].Current())) && SameEntities(old(entities.t), entities.t)
      ensures RowsBeforeStay(old(stores[id].rows), stores[id].rows, e)
      ensures SameStates(old(stores[id].rows), stores[id].rows)
      ensures stores[id].Current() == old(stores[id].Current()) - {e}
      ensures stores[id].Held() == if stores[id].rows.Observes() then old(stores[id].Held())
              else old(stores[id].Held()) - {e}
      ensures stores[id].Baseline() == old(stores[id].Baseline())
      ensures stores[id].rows.observation == old(stores[id].rows.observation)
    {
      ghost var w := State();
      assert w.StoreOk(id) && w.MaskOk(id, e);
      var row := stores[id].Row(e);
      if row.None? {
        NoRowToLose(w.stores[id], e);
        return false;
      }
      stores[id].Remove(e, row.value);
      RemovedAfter(w.stores[id], stores[id].rows, e, row.value);
      entities.UnsetComponent(e, id);
      assert State() == w.(table := entities.t, stores := w.stores[id := stores[id].rows]);
      ComponentKeepsValid(w, State(), id, e, false);
      return true;
    }

    /** Removes e and every component it has, and reports whether it was alive.
        Each component in its mask has a row to remove. */
    method Despawn(e: Entity) returns (despawned: bool)
      requires Valid()
      modifies entities, stores
      ensures Valid() && despawned == old(entities.Alive(e))
      ensures entities.t.observing == old(entities.t.observing) && entities.t.handedOut == old(entities.t.handedOut)
      ensures LastsGrow(old(entities.t), entities.t) && AliveAfter(old(entities.t), entities.t, {}, {e})
      ensures Acts(OpDespawn(e), None, if despawned then Some(e) else None, old(entities.t), entities.t)
      ensures !despawned ==> State() == old(State())
      ensures despawned ==> forall id | 0 <= id < |stores| :: StoreLost(old(State()).stores[id], stores[id].rows, e)
    {
      ghost var w := State();
      var mask := entities.Despawn(e);
      if mask.None? {
        assert State() == w;
        return false;
      }
      assert State().stores == w.stores;
      forall id: nat ensures State().StoreOk(id) { assert w.StoreOk(id); }
      RemoveRows(w, e, mask.value);
      DespawnedKeepsValid(w, State(), e);
      assert w.table.IndexOk(e.index);
      return true;
    }

    /** Removes the despawned entity's row from the store of every component in
        its mask. */
    method RemoveRows(ghost w: WorldState<V>, e: Entity, mask: set<nat>)
      requires Despawning(w, State(), e, 0) && mask == w.table.SlotAt(e.index).mask
      requires forall i, j | 0 <= i < j < |stores| :: stores[i] != stores[j]
      modifies stores
      ensures Despawning(w, State(), e, |stores|)
    {
      for id := 0 to |stores|
        invariant Despawning(w, State(), e, id)
      {
        ghost var v := State();
        assert w.MaskOk(id, e) && v.StoreOk(id) && v.stores[id] == w.stores[id];
        if id in mask {
          var row := stores[id].Row(e);
          stores[id].Remove(e, row.value);
        } else {
          NoRowToLose(w.stores[id], e);
        }
        assert State() == v.(stores := v.stores[id := stores[id].rows]);
        DespawningStep(w, v, e, id, stores[id].rows);
      }
    }

    /** Ends the observation window. The first reset turns observation on
        instead: each store with an observer starts observing. */
    method ResetObservation(shadowMemory: V)
      requires Valid()
      modifies entities, stores
      ensures Valid() && entities.t.observing && entities.t.handedOut == old(entities.t.handedOut)
      ensures Acts(OpEndWindow, None, None, old(entities.t), entities.t)
      ensures LastsGrow(old(entities.t), entities.t) && AliveAfter(old(entities.t), entities.t, {}, {})
      ensures forall id | 0 <= id < |stores| ::
                if old(entities.t.observing) then StoreSettled(old(State()).stores[id], stores[id].rows)
                else StoreStarted(old(State()).stores[id], stores[id].rows)
    {
      ghost var w := State();
      var started := entities.EndWindow();
      assert State().stores == w.stores;
      if started {
        StartStores(w, shadowMemory);
      } else {
        ResetStores(w);
      }
      WindowEndKeepsValid(w, State());
      forall e ensures entities.t.Alive(e) <==> w.table.Alive(e) {
        assert entities.t.SlotAt(e.index).live == w.table.SlotAt(e.index).live;
      }
    }

    method ResetStores(ghost w: WorldState<V>)
      requires w.Valid() && State().stores == w.stores && entities.t.observing
      requires forall i, j | 0 <= i < j < |stores| :: stores[i] != stores[j]
      modifies stores
      ensures forall id: nat {:trigger State().StoreOk(id)} :: State().StoreOk(id)
      ensures forall id | 0 <= id < |stores| :: StoreSettled(w.stores[id], stores[id].rows)
    {
      for id := 0 to |stores|
        invariant forall k | 0 <= k < id ::
          stores[k].Valid() && stores[k].AllLinked() && StoreSettled(w.stores[k], stores[k].rows)
        invariant forall k | id <= k < |stores| :: stores[k].rows == w.stores[k]
      {
        assert w.StoreOk(id);
        stores[id].ResetObservation();
        forall e ensures e in stores[id].Held() ==> e in stores[id].Current() { AllRowsLive(stores[id].rows, e); }
      }
    }

    method StartStores(ghost w: WorldState<V>, shadowMemory: V)
      requires w.Valid() && !w.table.observing && State().stores == w.stores && entities.t.observing
      requires forall i, j | 0 <= i < j < |stores| :: stores[i] != stores[j]
      modifies stores
      ensures forall id: nat {:trigger State().StoreOk(id)} :: State().StoreOk(id)
      ensures forall id | 0 <= id < |stores| :: StoreStarted(w.stores[id], stores[id].rows)
    {
      for id := 0 to |stores|
        invariant forall k | 0 <= k < id ::
          stores[k].Valid() && stores[k].AllLinked() && StoreStarted(w.stores[k], stores[k].rows)
        invariant forall k | id <= k < |stores| :: stores[k].rows == w.stores[k]
      {
        assert w.StoreOk(id);
        forall e ensures e in stores[id].Held() ==> e in stores[id].Current() { AllRowsLive(stores[id].rows, e); }
        stores[id].StartObservation(shadowMemory);
      }
    }
  }

  /** The last row takes the place of a row removed, so those before it stay. */
  lemma RemovedAfter<V>(s: StoreState<V>, t: StoreState<V>, e: Entity, row: nat)
    requires s.Valid() && row < s.live <= |s.owners| && s.owners[row] == e
    requires t.live == s.live - 1 <= |t.owners| && t.owners[..t.live] == s.owners[row := s.owners[t.live]][..t.live]
    ensures RowsBeforeStay(s, t, e)
  {
    assert forall p: nat | row < p <= s.live :: s.owners[..p][row] == e;
    forall p: nat | p <= s.live && e !in s.owners[..p] ensures SameBefore(s, t, p) {
      assert t.owners[..p] == t.owners[..t.live][..p];
    }
  }

  /** e has row of t, changed or added, and nothing else became of s. */
  ghost predicate PutsRow<V>(s: StoreState<V>, t: StoreState<V>, e: Entity, row: nat) {
    && row < t.live && row < |t.owners| && t.owners[row] == e
    && (t.Observes() ==> row < |t.states| && t.states[row] != RowUnchanged)
    && e in t.current && t.current == s.current[e := t.current[e]]
    && e in t.held && t.held == s.held[e := t.held[e]]
    && t.baseline == s.baseline && t.observation == s.observation
  }

  lemma WritesRow<V>(s: StoreState<V>, t: StoreState<V>, e: Entity, row: Option<nat>)
    requires s.Valid() && t.Valid() && s.Row(e) == row
    requires t == s.(states := t.states, changed := t.changed)
    requires t.states == if row.Some? && t.Observes() && s.states[row.value] == RowUnchanged
                         then s.states[row.value := RowChanged] else s.states
    ensures row.Some? ==> PutsRow(s, t, e, row.value)
  {
    assert s.LiveOk(e);
  }

  /** A store's window ended: it holds what it did, no row of the dead, and a
      baseline equal to it if it observes. */
  ghost predicate StoreSettled<V>(s: StoreState<V>, t: StoreState<V>) {
    && t.current == s.current && t.observation == s.observation
    && t.baseline == (if s.Observes() then s.current else s.baseline)
    && t.held == (if s.Observes() then s.current else s.held)
    && forall e {:trigger e in t.held} | e in t.held :: e in t.current
  }

  /** A store that waited for observation has started, every row counting as
      added. */
  ghost predicate StoreStarted<V>(s: StoreState<V>, t: StoreState<V>) {
    && t.current == s.current && t.baseline == s.baseline && t.held == s.held
    && t.observation == (if s.observation == ObserverWaiting then Observed else s.observation)
    && forall e {:trigger e in t.held} | e in t.held :: e in t.current
  }

  /** The table but for its masks: no entity came alive, ended or was handed
      out. */
  ghost predicate SameEntities(s: TableState, t: TableState) {
    && t == s.(slots := t.slots)
    && forall i: nat {:trigger t.SlotAt(i)} :: t.SlotAt(i) == s.SlotAt(i).(mask := t.SlotAt(i).mask)
  }

  lemma DespawningStep<V>(w: WorldState<V>, v: WorldState<V>, e: Entity, id: nat, s: StoreState<V>)
    requires id < |w.stores| && Despawning(w, v, e, id)
    requires s.Valid() && s.AllLinked() && s.observation == w.stores[id].observation
    requires StoreLost(w.stores[id], s, e)
    ensures Despawning(w, v.(stores := v.stores[id := s]), e, id + 1)
  {
    var u := v.(stores := v.stores[id := s]);
    assert w.StoreOk(id);
    forall k: nat ensures u.StoreOk(k) { assert v.StoreOk(k); }
  }

  /** A row marked changed, and nothing else. */
  lemma WrittenKeepsValid<V>(w: WorldState<V>, id: nat, s: StoreState<V>)
    requires w.Valid() && id < |w.stores| && s.Valid() && s.AllLinked()
    requires s == w.stores[id].(states := s.states, changed := s.changed)
    ensures w.(stores := w.stores[id := s]).Valid()
  {
    SetKeepsValid(w, id, s);
  }

  /** A value written, and nothing else. */
  lemma SetKeepsValid<V>(w: WorldState<V>, id: nat, s: StoreState<V>)
    requires w.Valid() && id < |w.stores| && s.Valid() && s.AllLinked() && (s.Observes() <==> w.stores[id].Observes())
    requires s.current.Keys == w.stores[id].current.Keys && s.held.Keys == w.stores[id].held.Keys
    ensures w.(stores := w.stores[id := s]).Valid()
  {
    var v := w.(stores := w.stores[id := s]);
    forall k: nat ensures v.StoreOk(k) { assert w.StoreOk(k); }
    forall k: nat, o ensures v.MaskOk(k, o) { assert w.MaskOk(k, o); }
    forall k: nat, o ensures v.OwnerOk(k, o) { assert w.OwnerOk(k, o); }
    forall i: nat, k: nat ensures v.MaskFits(i, k) { assert w.MaskFits(i, k); }
  }

  lemma SameSlotsKeepsValid<V>(w: WorldState<V>, t: TableState)
    requires w.Valid() && t.Valid() && t.observing == w.table.observing && t.dying == w.table.dying
    requires t.slots == w.table.slots
    ensures w.(table := t).Valid()
  {
    var v := w.(table := t);
    forall id: nat ensures v.StoreOk(id) { assert w.StoreOk(id); }
    forall id: nat, o ensures v.MaskOk(id, o) { assert w.MaskOk(id, o); }
    forall id: nat, o ensures v.OwnerOk(id, o) { assert w.OwnerOk(id, o); }
    forall i: nat, id: nat ensures v.MaskFits(i, id) { assert w.MaskFits(i, id); }
  }

  /** Where the old owner of an index is gone but has a row in the tail, the
      store gives a new one a row without complaint. */
  lemma TailTakesNewOwner<V>(w: WorldState<V>, id: nat, gone: Entity, e: Entity)
    requires w.Valid() && id < |w.stores| && gone in w.stores[id].held && gone !in w.stores[id].current
    requires e.index == gone.index && e != gone
    ensures e !in w.stores[id].current && w.stores[id].CanAdd(e)
  {
    var s := w.stores[id];
    assert w.StoreOk(id) && w.OwnerOk(id, gone) && w.OwnerOk(id, e);
    assert s.ContentOk(e) && s.LiveOk(e) && s.LinkOk(e.index);
    if e.index in s.links {
      var row := s.links[e.index];
      assert s.RowOk(row) && s.ContentOk(s.owners[row]) && w.OwnerOk(id, s.owners[row]) && s.LiveOk(gone);
    }
  }

  /** A world where gone, outside the range, held value at the last reset and
      was despawned since. */
  method Despawned<V(==)>(gone: Entity, value: V) returns (world: World<V>)
    requires gone.index > 1 && gone.generation > 0
    ensures fresh(world.entities) && |world.stores| == 1 && fresh(world.stores[0])
    ensures world.Valid() && world.stores[0].rows.Observes()
    ensures world.entities.t.first == 0 && world.entities.t.last == 1
    ensures gone !in world.stores[0].Current() && gone in world.stores[0].Held() && gone in world.stores[0].Baseline()
    ensures !world.entities.Alive(gone)
  {
    world := new World<V>(0, 1, 1);
    world.RegisterObserver(0);
    assert world.State().table.DyingOk(gone.index);
    var placed := world.CreateAt(gone);
    var _ := world.Add(gone, 0, value, value, value);
    world.ResetObservation(value);
    world.ResetObservation(value);
    var _ := world.Despawn(gone);
  }

  /** One input: entity 5, of generation 1 and outside the range, held a value at
      the last reset and was despawned since. Entity 5 of generation 2, which none
      reserved, is spawned as if it were, and once it is given a value the store
      no longer reports that the other's was removed. */
  method RemovalGoesUnreported<V(==)>(value: V) returns (table: EntityTable, store: Store<V>)
    ensures var gone, e := Entity(5, 1), Entity(5, 2);
            && table.Alive(e) && e !in table.t.handedOut && !table.t.InRange(e.index)
            && store.Valid() && store.rows.Observes() && e in store.Current()
            && DiffOf(store.Baseline(), store.Current(), gone) == DeltaRemoved
            && store.rows.ReportedRow(gone).None?
  {
    var gone, e := Entity(5, 1), Entity(5, 2);
    var world := Despawned(gone, value);
    ghost var w := world.State();
    assert w.StoreOk(0) && w.OwnerOk(0, gone) && w.table.IndexOk(5) && w.table.HandleOk(e);
    TailTakesNewOwner(w, 0, gone, e);
    table, store := world.entities, world.stores[0];
    var spawned := world.SpawnReserved(e);
    assert spawned;
    var _ := store.Add(e, value, value);
    OneOwnerIsReported(store.rows, e, gone);
  }
}
