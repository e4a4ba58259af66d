/** Whole runs of a world against a plain model of it: the entities alive, what
    each store holds, and what each held at the last observation reset. */
module EcsRun {
  import opened Basics
  import opened EcsEntity
  import opened EcsStoreState
  import opened EcsEntityTable
  import opened EcsWorld
  import opened EcsTerms
  import EcsDeltaQuery
  import EcsQuery

  /** A query's body says from which stores it removes of each entity yielded. */
  datatype Op<V> =
    | OpReserve
    | OpSpawn
    | OpSpawnReserved(e: Entity)
    | OpCreateAt(e: Entity)
    | OpDespawn(e: Entity)
    | OpAdd(e: Entity, id: nat, value: V)
    | OpWrite(e: Entity, id: nat, value: V)
    | OpRemove(e: Entity, id: nat)
    | OpObserve(id: nat)
    | OpQuery(terms: seq<EcsQuery.QueryTerm>, body: Entity -> set<nat>)
    | OpReset
  {
    /** Whether the operation is on one component. */
    predicate OnComponent() {
      OpAdd? || OpWrite? || OpRemove? || OpObserve?
    }

    /** Whether it may bring an entity to life, or reserve one. */
    predicate OnEntities() {
      OpReserve? || OpSpawn? || OpSpawnReserved? || OpCreateAt?
    }
  }

  /** What a component's store holds now and held at the last reset, and what
      each entity last held that has or, if observed, had a value this window. */
  datatype Component<V> = Component(
    now: map<Entity, V>, before: map<Entity, V>, recent: map<Entity, V>, observation: Observation)
  {
    ghost function With(e: Entity, value: V): Component<V> {
      this.(now := now[e := value], recent := recent[e := value])
    }

    ghost function Without(e: Entity): Component<V> {
      this.(now := now - {e}, recent := if observation == Observed then recent else recent - {e})
    }

    /** Without the entities of gone. */
    ghost function Kept(gone: Entity -> bool): Component<V> {
      this.(now := map e | e in now && !gone(e) :: now[e],
            recent := if observation == Observed then recent else map e | e in recent && !gone(e) :: recent[e])
    }
  }

  /** What the memory of a new row and of its shadow happens to hold. */
  datatype Memory<V> = Memory(row: V, shadow: V)

  datatype Model<V> = Model(alive: set<Entity>, components: seq<Component<V>>, observing: bool)

  /** What op brings to life in a table t, where only entities of handles, which
      the world reserved, are spawned as reserved. */
  ghost function BornBy<V>(op: Op<V>, t: TableState, handles: set<Entity>): Option<Entity>
    requires t.Shape()
  {
    match op
    case OpSpawn => t.Next()
    case OpSpawnReserved(e) => if e in handles && t.LooksReserved(e) then Some(e) else None
    case OpCreateAt(e) => if t.MayPlace(e) then Some(e) else None
    case _ => None
  }

  ghost function ReservedBy<V>(op: Op<V>, t: TableState): Option<Entity>
    requires t.Shape()
  {
    if op.OpReserve? then t.Next() else None
  }

  /** Whether a query of terms yields e. */
  ghost predicate Selects<V>(m: Model<V>, terms: seq<EcsQuery.QueryTerm>, e: Entity)
    requires EcsQuery.TermsFit(terms, |m.components|)
  {
    forall i | 0 <= i < |terms| ::
      var now := m.components[terms[i].store].now;
      if terms[i].mode.Drives() then e in now else terms[i].mode == TermWithout ==> e !in now
  }

  ghost predicate CanQuery<V>(m: Model<V>, terms: seq<EcsQuery.QueryTerm>) {
    EcsQuery.TermsFit(terms, |m.components|) && EcsQuery.CanDeclare(terms)
  }

  /** Component id after op: the whole of what each operation does to it. */
  ghost function ComponentAfter<V>(m: Model<V>, id: nat, op: Op<V>): Component<V>
    requires id < |m.components|
  {
    var c := m.components[id];
    match op
    case OpDespawn(e) => if e in m.alive then c.Without(e) else c
    case OpAdd(e, at, value) => if at == id && e in m.alive then c.With(e, value) else c
    case OpWrite(e, at, value) => if at == id && e in c.now then c.With(e, value) else c
    case OpRemove(e, at) => if at == id then c.Without(e) else c
    case OpObserve(at) => if at == id && c.observation == Unobserved then c.(observation := ObserverWaiting) else c
    case OpQuery(terms, body) => if CanQuery(m, terms) then c.Kept(e => Selects(m, terms, e) && id in body(e)) else c
    case OpReset =>
      if !m.observing then c.(observation := if c.observation == ObserverWaiting then Observed else c.observation)
      else if c.observation == Observed then c.(before := c.now, recent := c.now)
      else c
    case _ => c
  }

  /** The model after op, which brought born to life, if anything. */
  ghost function ModelAfter<V>(m: Model<V>, op: Op<V>, born: Option<Entity>): Model<V> {
    Model(if born.Some? then m.alive + {born.value} else if op.OpDespawn? then m.alive - {op.e} else m.alive,
          seq(|m.components|, id requires 0 <= id < |m.components| => ComponentAfter(m, id, op)),
          m.observing || op.OpReset?)
  }

  ghost function ModelAfterAll<V>(m: Model<V>, ops: seq<Op<V>>, born: seq<Option<Entity>>): Model<V>
    requires |born| == |ops|
  {
    if ops == [] then m
    else ModelAfter(ModelAfterAll(m, ops[..|ops| - 1], born[..|ops| - 1]), ops[|ops| - 1], born[|ops| - 1])
  }

  ghost predicate IsComponent<V>(c: Component<V>, s: StoreState<V>) {
    c.now == s.current && c.before == s.baseline && c.recent == s.held && c.observation == s.observation
  }

  ghost predicate IsModel<V>(m: Model<V>, w: WorldState<V>) {
    && |m.components| == |w.stores| && m.observing == w.table.observing
    && (forall e {:trigger w.table.Alive(e)} :: e in m.alive <==> w.table.Alive(e))
    && forall id | 0 <= id < |w.stores| :: IsComponent(m.components[id], w.stores[id])
  }

  /** The model of a new world: no entity is alive, and nothing is held. */
  ghost function NewModel<V>(componentCount: nat): Model<V> {
    Model({}, seq(componentCount, _ => Component(map[], map[], map[], Unobserved)), false)
  }

  method NewWorld<V(==)>(first: nat, last: nat, componentCount: nat) returns (world: World<V>)
    requires first <= last
    ensures world.Valid() && fresh(world.entities) && forall id | 0 <= id < |world.stores| :: fresh(world.stores[id])
    ensures IsModel(NewModel(componentCount), world.State())
  {
    world := new World<V>(first, last, componentCount);
  }

  /** The dead hold nothing, so a despawn of one changes nothing. */
  lemma DeadHoldNothing<V>(w: WorldState<V>, e: Entity, id: nat)
    requires w.Valid() && !w.table.Alive(e) && id < |w.stores|
    ensures e !in w.stores[id].current
  {
    assert w.MaskOk(id, e);
  }

  lemma StepIsModel<V>(m: Model<V>, w: WorldState<V>, v: WorldState<V>, op: Op<V>, born: Option<Entity>)
    requires w.Valid() && IsModel(m, w) && |v.stores| == |w.stores|
    requires v.table.observing == (w.table.observing || op.OpReset?)
    requires AliveAfter(w.table, v.table, if born.Some? then {born.value} else {}, if op.OpDespawn? then {op.e} else {})
    requires !op.OnEntities() ==> born.None?
    requires ComponentsAfter(m, w, v, op)
    ensures IsModel(ModelAfter(m, op, born), v)
  {
    var after := ModelAfter(m, op, born);
    forall e ensures e in after.alive <==> v.table.Alive(e) {
      assert e in m.alive <==> w.table.Alive(e);
    }
  }

  ghost predicate ComponentsAfter<V>(m: Model<V>, w: WorldState<V>, v: WorldState<V>, op: Op<V>)
    requires |m.components| == |w.stores|
  {
    |v.stores| == |w.stores| &&
    forall id | 0 <= id < |w.stores| ::
      IsComponent(ComponentAfter(m, id, op), v.stores[id])
  }

  lemma DespawnedComponents<V>(m: Model<V>, w: WorldState<V>, v: WorldState<V>, op: Op<V>)
    requires w.Valid() && IsModel(m, w) && |v.stores| == |w.stores| && op.OpDespawn?
    requires if w.table.Alive(op.e) then forall id | 0 <= id < |w.stores| :: StoreLost(w.stores[id], v.stores[id], op.e)
             else v == w
    ensures ComponentsAfter(m, w, v, op)
  {
    forall id | 0 <= id < |w.stores|
      ensures IsComponent(ComponentAfter(m, id, op), v.stores[id])
    {
      assert op.e in m.alive <==> w.table.Alive(op.e);
      assert IsComponent(m.components[id], w.stores[id]);
    }
  }

  /** What an operation on one component does to its store. */
  ghost predicate Becomes<V>(s: StoreState<V>, t: StoreState<V>, op: Op<V>, table: TableState)
    requires op.OnComponent()
  {
    && t.baseline == s.baseline
    && t.observation == (if op.OpObserve? && s.observation == Unobserved then ObserverWaiting else s.observation)
    && if (op.OpAdd? && table.Alive(op.e)) || (op.OpWrite? && op.e in s.current) then
         t.current == s.current[op.e := op.value] && t.held == s.held[op.e := op.value]
       else if op.OpRemove? then
         t.current == s.current - {op.e} && t.held == if s.Observes() then s.held else s.held - {op.e}
       else t.current == s.current && t.held == s.held
  }

  lemma OneComponentAfter<V>(m: Model<V>, w: WorldState<V>, v: WorldState<V>, op: Op<V>)
    requires w.Valid() && IsModel(m, w) && op.OnComponent() && |v.stores| == |w.stores|
    requires forall id | 0 <= id < |w.stores| && id != op.id :: v.stores[id] == w.stores[id]
    requires op.id < |w.stores| ==> Becomes(w.stores[op.id], v.stores[op.id], op, w.table)
    ensures ComponentsAfter(m, w, v, op)
  {
    if !op.OpObserve? {
      assert op.e in m.alive <==> w.table.Alive(op.e);
    }
    forall id | 0 <= id < |w.stores|
      ensures IsComponent(ComponentAfter(m, id, op), v.stores[id])
    {
      assert IsComponent(m.components[id], w.stores[id]);
    }
  }

  /** What the world does of an operation on one component. */
  method ChangeComponent<V(==)>(world: World<V>, op: Op<V>, memory: Memory<V>, ghost m: Model<V>)
    requires world.Valid() && IsModel(m, world.State()) && op.OnComponent()
    modifies world.entities, world.stores
    ensures world.Valid() && SameEntities(old(world.entities.t), world.entities.t)
    ensures ComponentsAfter(m, old(world.State()), world.State(), op)
  {
    ghost var w := world.State();
    if op.id < |world.stores| {
      if op.OpAdd? {
        var _ := world.Add(op.e, op.id, op.value, memory.row, memory.shadow);
      } else if op.OpWrite? {
        var _ := world.Overwrite(op.e, op.id, op.value);
      } else if op.OpRemove? {
        var _ := world.Remove(op.e, op.id);
      } else {
        world.RegisterObserver(op.id);
      }
    }
    ghost var v := world.State();
    assert forall id | 0 <= id < |w.stores| && id != op.id :: v.stores[id] == w.stores[id];
    OneComponentAfter(m, w, v, op);
  }

  /** An operation on one component. */
  method StepComponent<V(==)>(world: World<V>, op: Op<V>, memory: Memory<V>, ghost m: Model<V>)
    requires world.Valid() && IsModel(m, world.State()) && op.OnComponent()
    modifies world.entities, world.stores
    ensures world.Valid() && SameEntities(old(world.entities.t), world.entities.t)
    ensures IsModel(ModelAfter(m, op, None), world.State())
  {
    ghost var w := world.State();
    ChangeComponent(world, op, memory, m);
    StepIsModel(m, w, world.State(), op, None);
  }

  /** What a query yields of a component, as the model has it. */
  ghost function ModelYields<V>(term: EcsQuery.QueryTerm, c: Component<V>, e: Entity): Option<V> {
    if term.mode in {TermWith, TermWithout} || e !in c.now then None else Some(c.now[e])
  }

  /** rows has each entity the query selects once, with what the model has of it. */
  ghost predicate IsSelection<V>(m: Model<V>, terms: seq<EcsQuery.QueryTerm>, rows: seq<EcsQuery.QueryRow<V>>)
    requires EcsQuery.TermsFit(terms, |m.components|)
  {
    && (forall e :: EcsQuery.Yielded(rows, e) <==> Selects(m, terms, e))
    && (forall j, k | 0 <= j < k < |rows| :: rows[j].entity != rows[k].entity)
    && (forall k | 0 <= k < |rows| :: |rows[k].terms| == |terms|)
    && (forall k, i | 0 <= k < |rows| && 0 <= i < |terms| ::
          rows[k].terms[i] == ModelYields(terms[i], m.components[terms[i].store], rows[k].entity))
  }

  lemma SelectsIsMatches<V>(m: Model<V>, w: WorldState<V>, terms: seq<EcsQuery.QueryTerm>, e: Entity)
    requires IsModel(m, w) && EcsQuery.TermsFit(terms, |w.stores|)
    ensures Selects(m, terms, e) <==> EcsQuery.Matches(terms, w.stores, e)
  {
    assert forall i | 0 <= i < |terms| :: IsComponent(m.components[terms[i].store], w.stores[terms[i].store]);
    assert forall i | 0 <= i < |terms| :: EcsQuery.Accepts(terms[i], w.stores[terms[i].store], e) <==>
      var now := m.components[terms[i].store].now;
      if terms[i].mode.Drives() then e in now else terms[i].mode == TermWithout ==> e !in now;
  }

  lemma QueriedComponents<V>(m: Model<V>, w: WorldState<V>, v: WorldState<V>, op: Op<V>,
                             rows: seq<EcsQuery.QueryRow<V>>)
    requires IsModel(m, w) && |v.stores| == |w.stores| && op.OpQuery? && CanQuery(m, op.terms)
    requires forall e :: EcsQuery.Yielded(rows, e) <==> Selects(m, op.terms, e)
    requires forall id | 0 <= id < |w.stores| :: EcsQuery.HoldsRest(w.stores[id], v.stores[id], rows, op.body, id)
    ensures ComponentsAfter(m, w, v, op)
  {
    forall id | 0 <= id < |w.stores| ensures IsComponent(ComponentAfter(m, id, op), v.stores[id]) {
      assert IsComponent(m.components[id], w.stores[id]);
      assert EcsQuery.HoldsRest(w.stores[id], v.stores[id], rows, op.body, id);
      var gone := e => Selects(m, op.terms, e) && id in op.body(e);
      RestIsKept(w.stores[id].current, v.stores[id].current, rows, op.body, id, gone);
      if !w.stores[id].Observes() {
        RestIsKept(w.stores[id].held, v.stores[id].held, rows, op.body, id, gone);
      }
    }
  }

  lemma RestIsKept<V>(before: map<Entity, V>, now: map<Entity, V>, rows: seq<EcsQuery.QueryRow<V>>,
                      body: Entity -> set<nat>, id: nat, gone: Entity -> bool)
    requires EcsQuery.IsRest(before, now, rows, body, id)
    requires forall e :: gone(e) <==> EcsQuery.Yielded(rows, e) && id in body(e)
    ensures now == map e | e in before && !gone(e) :: before[e]
  {
    var kept := map e | e in before && !gone(e) :: before[e];
    forall e ensures e in kept <==> e in now { assert gone(e) <==> EcsQuery.Yielded(rows, e) && id in body(e); }
  }

  /** A query, with the removals of its body: it yields what the model selects. */
  method StepQuery<V(==)>(world: World<V>, op: Op<V>, ghost m: Model<V>) returns (rows: seq<EcsQuery.QueryRow<V>>)
    requires world.Valid() && IsModel(m, world.State()) && op.OpQuery? && CanQuery(m, op.terms)
    modifies world.entities, world.stores
    ensures world.Valid() && SameEntities(old(world.entities.t), world.entities.t)
    ensures ComponentsAfter(m, old(world.State()), world.State(), op)
    ensures IsModel(ModelAfter(m, op, None), world.State())
    ensures IsSelection(m, op.terms, rows)
    ensures EcsQuery.MarksInOrder(op.terms, old(world.State()).stores, world.State().stores, rows)
  {
    ghost var w := world.State();
    rows := EcsQuery.All(op.terms, world, op.body);
    forall e ensures EcsQuery.Yielded(rows, e) <==> Selects(m, op.terms, e) { SelectsIsMatches(m, w, op.terms, e); }
    QueriedComponents(m, w, world.State(), op, rows);
    SoundIsSelection(m, w, op.terms, rows);
    StepIsModel(m, w, world.State(), op, None);
  }

  lemma SoundIsSelection<V>(m: Model<V>, w: WorldState<V>, terms: seq<EcsQuery.QueryTerm>,
                            rows: seq<EcsQuery.QueryRow<V>>)
    requires IsModel(m, w) && EcsQuery.TermsFit(terms, |w.stores|) && EcsQuery.Sound(terms, w.stores, rows)
    requires forall e :: EcsQuery.Yielded(rows, e) <==> Selects(m, terms, e)
    ensures IsSelection(m, terms, rows)
  {
    forall k, i | 0 <= k < |rows| && 0 <= i < |terms|
      ensures |rows[k].terms| == |terms|
      ensures rows[k].terms[i] == ModelYields(terms[i], m.components[terms[i].store], rows[k].entity)
    {
      assert EcsQuery.RowCorrect(terms, w.stores, rows[k]);
      assert IsComponent(m.components[terms[i].store], w.stores[terms[i].store]);
    }
    assert forall k | 0 <= k < |rows| :: EcsQuery.RowCorrect(terms, w.stores, rows[k]);
  }

  /** What op answered: the entity it brought to life, the one it reserved, and
      the rows it yielded. */
  datatype Answer<V> = Answer(born: Option<Entity>, reserved: Option<Entity>, rows: seq<EcsQuery.QueryRow<V>>) {
    function Handle(): set<Entity> {
      if reserved.Some? then {reserved.value} else {}
    }
  }

  /** answer is what op is to answer where the model is m and the table t. */
  ghost predicate IsAnswer<V>(answer: Answer<V>, op: Op<V>, m: Model<V>, t: TableState, handles: set<Entity>)
    requires t.Shape()
  {
    && answer.born == BornBy(op, t, handles) && answer.reserved == ReservedBy(op, t)
    && if op.OpQuery? && CanQuery(m, op.terms) then IsSelection(m, op.terms, answer.rows) else answer.rows == []
  }

  /** What op does to the table of entities, answer being what it answered. */
  ghost predicate TableActs<V>(op: Op<V>, answer: Answer<V>, s: TableState, t: TableState)
    requires s.Shape()
  {
    match op
    case OpReserve => Acts(TableOp.OpReserve, None, answer.reserved, s, t)
    case OpSpawn => Acts(TableOp.OpSpawn, None, answer.born, s, t)
    case OpSpawnReserved(e) =>
      Acts(TableOp.OpSpawnReserved(0), if answer.born.Some? then Some(e) else None, answer.born, s, t)
    case OpCreateAt(e) => Acts(TableOp.OpPlace(e), None, answer.born, s, t)
    case OpDespawn(e) => Acts(TableOp.OpDespawn(e), None, if s.Alive(e) then Some(e) else None, s, t)
    case OpReset => Acts(TableOp.OpEndWindow, None, None, s, t)
    case _ => SameEntities(s, t)
  }

  /** What the world does of it. */
  method ChangeEntities<V(==)>(world: World<V>, op: Op<V>, handles: set<Entity>)
    returns (born: Option<Entity>, reserved: Option<Entity>)
    requires world.Valid() && op.OnEntities() && handles <= world.entities.t.handedOut
    modifies world.entities
    ensures world.Valid() && world.entities.t.observing == old(world.entities.t.observing)
    ensures TableActs(op, Answer(born, reserved, []), old(world.entities.t), world.entities.t)
    ensures born == BornBy(op, old(world.entities.t), handles) && reserved == ReservedBy(op, old(world.entities.t))
    ensures born.Some? ==>
            old(world.entities.t).MayPlace(born.value) || Born(old(world.entities.t), world.entities.t, born.value)
    ensures AliveAfter(old(world.entities.t), world.entities.t, if born.Some? then {born.value} else {}, {})
    ensures LastsGrow(old(world.entities.t), world.entities.t)
    ensures handles <= world.entities.t.handedOut && (reserved.Some? ==> reserved.value in world.entities.t.handedOut)
  {
    born, reserved := None, None;
    match op {
      case OpReserve =>
        var e := world.Reserve();
        reserved := Answered(e);
      case OpSpawn =>
        var e := world.Spawn();
        born := Answered(e);
      case OpSpawnReserved(e) =>
        if e in handles {
          var spawned := world.SpawnReserved(e);
          born := if spawned then Some(e) else None;
        }
      case OpCreateAt(e) =>
        var placed := world.CreateAt(e);
        born := if placed then Some(e) else None;
    }
  }

  /** An operation that may bring an entity to life, or reserve one. */
  method StepEntities<V(==)>(world: World<V>, op: Op<V>, handles: set<Entity>, ghost m: Model<V>)
    returns (born: Option<Entity>, reserved: Option<Entity>)
    requires world.Valid() && IsModel(m, world.State()) && op.OnEntities() && handles <= world.entities.t.handedOut
    modifies world.entities
    ensures world.Valid() && IsModel(ModelAfter(m, op, born), world.State())
    ensures TableActs(op, Answer(born, reserved, []), old(world.entities.t), world.entities.t)
    ensures born == BornBy(op, old(world.entities.t), handles) && reserved == ReservedBy(op, old(world.entities.t))
    ensures born.Some? ==>
            old(world.entities.t).MayPlace(born.value) || Born(old(world.entities.t), world.entities.t, born.value)
    ensures LastsGrow(old(world.entities.t), world.entities.t)
    ensures handles <= world.entities.t.handedOut && (reserved.Some? ==> reserved.value in world.entities.t.handedOut)
  {
    ghost var w := world.State();
    born, reserved := ChangeEntities(world, op, handles);
    assert world.State().stores == w.stores;
    StepIsModel(m, w, world.State(), op, born);
  }

  /** What was yielded for writing, if op is a query, is marked, and nothing else
      is, and rows come in the order of the walk. */
  ghost predicate QueryMarks<V>(op: Op<V>, answer: Answer<V>, w: WorldState<V>, v: WorldState<V>) {
    op.OpQuery? && EcsQuery.TermsFit(op.terms, |w.stores|) && EcsQuery.CanDeclare(op.terms) ==>
      EcsQuery.MarksInOrder(op.terms, w.stores, v.stores, answer.rows)
  }

  /** A despawn, or a reset. */
  method StepWorld<V(==)>(world: World<V>, op: Op<V>, memory: Memory<V>, ghost m: Model<V>)
    requires world.Valid() && IsModel(m, world.State()) && (op.OpDespawn? || op.OpReset?)
    modifies world.entities, world.stores
    ensures world.Valid() && IsModel(ModelAfter(m, op, None), world.State())
    ensures TableActs(op, Answer(None, None, []), old(world.entities.t), world.entities.t)
    ensures LastsGrow(old(world.entities.t), world.entities.t)
    ensures world.entities.t.handedOut == old(world.entities.t.handedOut)
  {
    ghost var w := world.State();
    if op.OpDespawn? {
      var _ := world.Despawn(op.e);
      DespawnedComponents(m, w, world.State(), op);
    } else {
      world.ResetObservation(memory.shadow);
    }
    StepIsModel(m, w, world.State(), op, None);
  }

  /** One operation. */
  method Step<V(==)>(world: World<V>, op: Op<V>, memory: Memory<V>, handles: set<Entity>, ghost m: Model<V>)
    returns (answer: Answer<V>)
    requires world.Valid() && IsModel(m, world.State()) && handles <= world.entities.t.handedOut
    modifies world.entities, world.stores
    ensures world.Valid() && IsModel(ModelAfter(m, op, answer.born), world.State())
    ensures IsAnswer(answer, op, m, old(world.entities.t), handles)
    ensures TableActs(op, answer, old(world.entities.t), world.entities.t)
    ensures QueryMarks(op, answer, old(world.State()), world.State())
    ensures answer.born.Some? ==>
              || old(world.entities.t).MayPlace(answer.born.value)
              || Born(old(world.entities.t), world.entities.t, answer.born.value)
    ensures LastsGrow(old(world.entities.t), world.entities.t)
    ensures handles + answer.Handle() <= world.entities.t.handedOut
  {
    answer := Answer(None, None, []);
    if op.OnEntities() {
      var born, reserved := StepEntities(world, op, handles, m);
      answer := Answer(born, reserved, []);
    } else if op.OnComponent() {
      StepComponent(world, op, memory, m);
    } else if op.OpDespawn? || op.OpReset? {
      StepWorld(world, op, memory, m);
    } else if EcsQuery.TermsFit(op.terms, |world.stores|) && EcsQuery.CanDeclare(op.terms) {
      var rows := StepQuery(world, op, m);
      answer := answer.(rows := rows);
    } else {
      StepIsModel(m, world.State(), world.State(), op, None);
    }
  }

  /** What a run did: its operations, what each answered, and the world before
      and after each. */
  datatype Course<V> = Course(ops: seq<Op<V>>, answers: seq<Answer<V>>, states: seq<WorldState<V>>) {
    ghost predicate Shape() {
      |states| == |ops| + 1 && |answers| == |ops|
    }

    /** What each of the first k operations brought to life. */
    ghost function Born(k: nat): seq<Option<Entity>>
      requires k <= |answers|
    {
      seq(k, j requires 0 <= j < |answers| => answers[j].born)
    }

    /** The entities reserved by operation k, besides those reserved before. */
    ghost function Handles(before: set<Entity>, k: nat): set<Entity>
      requires k <= |answers|
    {
      before + set j | 0 <= j < k && answers[j].reserved.Some? :: answers[j].reserved.value
    }

    /** The model's account of the first k operations. */
    ghost function ModelAt(m: Model<V>, k: nat): Model<V>
      requires Shape() && k <= |ops|
    {
      ModelAfterAll(m, ops[..k], Born(k))
    }

    /** The world after the first k operations is what the model says. */
    ghost predicate Reached(m: Model<V>, k: nat)
      requires Shape()
    {
      k <= |ops| ==> states[k].Valid() && IsModel(ModelAt(m, k), states[k])
    }

    /** Operation k answered exactly what it should. */
    ghost predicate Did(m: Model<V>, before: set<Entity>, k: nat)
      requires Shape()
    {
      k < |ops| && states[k].table.Shape() ==>
        && IsAnswer(answers[k], ops[k], ModelAt(m, k), states[k].table, Handles(before, k))
        && TableActs(ops[k], answers[k], states[k].table, states[k + 1].table)
        && QueryMarks(ops[k], answers[k], states[k], states[k + 1])
    }

    ghost predicate Went(m: Model<V>, before: set<Entity>) {
      && Shape()
      && (forall k: nat {:trigger Reached(m, k)} :: Reached(m, k))
      && (forall k: nat {:trigger Did(m, before, k)} :: Did(m, before, k))
    }

    ghost function Then(op: Op<V>, answer: Answer<V>, v: WorldState<V>): Course<V> {
      Course(ops + [op], answers + [answer], states + [v])
    }

    lemma ThenHandles(before: set<Entity>, op: Op<V>, answer: Answer<V>, v: WorldState<V>, k: nat)
      requires Shape() && k <= |ops|
      ensures Then(op, answer, v).Handles(before, k) == Handles(before, k)
      ensures Then(op, answer, v).Handles(before, |ops| + 1) == Handles(before, |ops|) + answer.Handle()
    {
      var c := Then(op, answer, v);
      assert forall j | 0 <= j < |answers| :: c.answers[j] == answers[j];
      assert c.answers[|answers|] == answer;
    }

    lemma ThenModel(m: Model<V>, op: Op<V>, answer: Answer<V>, v: WorldState<V>, k: nat)
      requires Shape() && k <= |ops|
      ensures Then(op, answer, v).ModelAt(m, k) == ModelAt(m, k)
      ensures Then(op, answer, v).ModelAt(m, |ops| + 1) == ModelAfter(ModelAt(m, |ops|), op, answer.born)
    {
      var c, n := Then(op, answer, v), |ops|;
      assert c.ops[..k] == ops[..k] && c.Born(k) == Born(k);
      assert c.ops[..n + 1][..n] == ops[..n] && c.Born(n + 1)[..n] == Born(n);
    }

    /** One operation more. */
    lemma ThenWent(m: Model<V>, before: set<Entity>, op: Op<V>, answer: Answer<V>, v: WorldState<V>)
      requires Went(m, before) && states[|ops|].table.Shape()
      requires v.Valid() && IsModel(ModelAfter(ModelAt(m, |ops|), op, answer.born), v)
      requires IsAnswer(answer, op, ModelAt(m, |ops|), states[|ops|].table, Handles(before, |ops|))
      requires TableActs(op, answer, states[|ops|].table, v.table) && QueryMarks(op, answer, states[|ops|], v)
      ensures Then(op, answer, v).Went(m, before)
    {
      var c := Then(op, answer, v);
      forall k: nat ensures c.Reached(m, k) {
        if k <= |ops| {
          assert Reached(m, k);
          ThenModel(m, op, answer, v, k);
        } else if k == |ops| + 1 {
          ThenModel(m, op, answer, v, |ops|);
        }
      }
      forall k: nat ensures c.Did(m, before, k) {
        if k <= |ops| {
          assert Did(m, before, k);
          ThenHandles(before, op, answer, v, k);
          ThenModel(m, op, answer, v, k);
        }
      }
    }
  }

  /** No entity of the range is born twice: one born holds at most the last
      generation of its index. */
  ghost predicate NoneBornTwice(t: TableState, born: seq<Option<Entity>>) {
    && (forall k | 0 <= k < |born| && born[k].Some? && t.InRange(born[k].value.index) ::
          born[k].value.generation <= t.SlotAt(born[k].value.index).last)
    && (forall j, k | 0 <= j < k < |born| && born[j].Some? && born[j] == born[k] :: !t.InRange(born[j].value.index))
  }

  /** Over any run the world is what the model says, before and after each
      operation, which answers exactly what it should. */
  method Run<V(==)>(world: World<V>, ops: seq<Op<V>>, memories: seq<Memory<V>>, before: set<Entity>, ghost m: Model<V>)
    returns (answers: seq<Answer<V>>, ghost course: Course<V>)
    requires world.Valid() && IsModel(m, world.State()) && |memories| == |ops|
    requires before <= world.entities.t.handedOut
    modifies world.entities, world.stores
    ensures world.Valid() && course.Went(m, before)
    ensures course.ops == ops && course.answers == answers
    ensures course.states[0] == old(world.State()) && course.states[|ops|] == world.State()
    ensures NoneBornTwice(world.entities.t, course.Born(|ops|))
  {
    answers, course := [], Course([], [], [world.State()]);
    var handles := before;
    for i := 0 to |ops|
      invariant world.Valid() && course.Went(m, before)
      invariant course.ops == ops[..i] && course.answers == answers
      invariant course.states[0] == old(world.State()) && course.states[i] == world.State()
      invariant handles == course.Handles(before, i) && handles <= world.entities.t.handedOut
      invariant NoneBornTwice(world.entities.t, course.Born(i))
    {
      var answer := OneMore(world, ops[i], memories[i], handles, m, before, course);
      course := course.Then(ops[i], answer, world.State());
      handles := handles + answer.Handle();
      answers := answers + [answer];
      assert ops[..i] + [ops[i]] == ops[..i + 1];
    }
    assert ops[..|ops|] == ops;
  }

  /** One operation more of a run. */
  method OneMore<V(==)>(world: World<V>, op: Op<V>, memory: Memory<V>, handles: set<Entity>, ghost m: Model<V>,
                        ghost before: set<Entity>, ghost course: Course<V>)
    returns (answer: Answer<V>)
    requires world.Valid() && course.Went(m, before) && course.states[|course.ops|] == world.State()
    requires handles == course.Handles(before, |course.ops|) && handles <= world.entities.t.handedOut
    requires NoneBornTwice(world.entities.t, course.Born(|course.ops|))
    modifies world.entities, world.stores
    ensures world.Valid()
    ensures var c := course.Then(op, answer, world.State());
            && c.Went(m, before) && c.Handles(before, |course.ops| + 1) == handles + answer.Handle()
            && NoneBornTwice(world.entities.t, c.Born(|course.ops| + 1))
    ensures handles + answer.Handle() <= world.entities.t.handedOut
  {
    ghost var n := |course.ops|;
    assert course.Reached(m, n);
    answer := Step(world, op, memory, handles, course.ModelAt(m, n));
    OneMoreWent(course, m, before, handles, op, answer, world.State());
  }

  lemma OneMoreWent<V>(course: Course<V>, m: Model<V>, before: set<Entity>, handles: set<Entity>, op: Op<V>,
                       answer: Answer<V>, v: WorldState<V>)
    requires course.Went(m, before) && handles == course.Handles(before, |course.ops|)
    requires var n := |course.ops|;
             && course.states[n].table.Shape() && v.Valid()
             && IsModel(ModelAfter(course.ModelAt(m, n), op, answer.born), v)
             && IsAnswer(answer, op, course.ModelAt(m, n), course.states[n].table, handles)
             && TableActs(op, answer, course.states[n].table, v.table) && QueryMarks(op, answer, course.states[n], v)
             && NoneBornTwice(course.states[n].table, course.Born(n)) && LastsGrow(course.states[n].table, v.table)
             && (answer.born.Some? ==>
                   || course.states[n].table.MayPlace(answer.born.value)
                   || Born(course.states[n].table, v.table, answer.born.value))
    ensures var c := course.Then(op, answer, v);
            && c.Went(m, before) && c.Handles(before, |course.ops| + 1) == handles + answer.Handle()
            && NoneBornTwice(v.table, c.Born(|course.ops| + 1))
  {
    var n := |course.ops|;
    course.ThenWent(m, before, op, answer, v);
    course.ThenHandles(before, op, answer, v, n);
    NotBornBefore(course.states[n].table, v.table, course.Born(n), answer.born);
    assert course.Then(op, answer, v).Born(n + 1) == course.Born(n) + [answer.born];
  }

  lemma NotBornBefore(s: TableState, t: TableState, born: seq<Option<Entity>>, made: Option<Entity>)
    requires NoneBornTwice(s, born) && LastsGrow(s, t)
    requires made.Some? ==> s.MayPlace(made.value) || Born(s, t, made.value)
    ensures NoneBornTwice(t, born + [made])
  {
    var after := born + [made];
    forall k | 0 <= k < |after| && after[k].Some? && t.InRange(after[k].value.index)
      ensures after[k].value.generation <= t.SlotAt(after[k].value.index).last
    {
      assert k < |born| ==> after[k] == born[k];
    }
    forall j, k | 0 <= j < k < |after| && after[j].Some? && after[j] == after[k]
      ensures !t.InRange(after[j].value.index)
    {
      assert after[j] == born[j] && (k < |born| ==> after[k] == born[k]);
    }
  }

  /** What a delta query over a model's components yields: the reference it is
      compared with. */
  ghost predicate ModelAccepts<V>(mode: TermMode, c: Component<V>, e: Entity) {
    match mode
    case TermWith => e in c.now
    case TermWithout => e !in c.now
    case _ => e in c.now || e in c.before
  }

  ghost predicate ModelMatches<V>(modes: seq<TermMode>, components: seq<Component<V>>, e: Entity)
    requires |modes| == |components|
  {
    && (forall i | 0 <= i < |modes| :: ModelAccepts(modes[i], components[i], e))
    && (exists i | 0 <= i < |modes| ::
          modes[i] == TermRead && DiffOf(components[i].before, components[i].now, e) != DeltaNone)
  }

  /** What a yielded row says of a component, as the model has it. */
  ghost predicate ModelHolds<V>(value: EcsDeltaQuery.TermValue<V>, c: Component<V>, e: Entity) {
    && value.delta == DiffOf(c.before, c.now, e)
    && value.previous == (if e in c.before then Some(c.before[e]) else None)
    && e in c.recent && value.address == Some(c.recent[e]) && (e in c.now ==> c.recent[e] == c.now[e])
  }

  /** rows is the diff between what the components held at the last reset and
      now, if every value among them is observed, and is empty otherwise. */
  ghost predicate IsDiff<V>(modes: seq<TermMode>, components: seq<Component<V>>, rows: seq<EcsDeltaQuery.DeltaRow<V>>)
    requires |modes| == |components|
  {
    if exists i | 0 <= i < |modes| :: modes[i] == TermRead && components[i].observation != Observed then rows == []
    else
      && (forall e :: EcsDeltaQuery.Yielded(rows, e) <==> ModelMatches(modes, components, e))
      && (forall j, k | 0 <= j < k < |rows| :: rows[j].entity != rows[k].entity)
      && (forall k, i | 0 <= k < |rows| && 0 <= i < |modes| && modes[i] == TermRead ::
            i < |rows[k].terms| && ModelHolds(rows[k].terms[i], components[i], rows[k].entity))
  }

  lemma QueryIsDiff<V>(modes: seq<TermMode>, components: seq<Component<V>>, views: seq<TermView<V>>,
                       rows: seq<EcsDeltaQuery.DeltaRow<V>>)
    requires |modes| == |components| == |views|
    requires forall i | 0 <= i < |views| :: views[i].mode == modes[i] && IsComponent(components[i], views[i].rows)
    requires EcsDeltaQuery.Valid(views)
    requires EcsDeltaQuery.Observed(views) ==>
               EcsDeltaQuery.Sound(views, rows)
                   && forall e :: EcsDeltaQuery.Yielded(rows, e) <==> EcsDeltaQuery.Matches(views, e)
    requires !EcsDeltaQuery.Observed(views) ==> rows == []
    ensures IsDiff(modes, components, rows)
  {
    if EcsDeltaQuery.Observed(views) {
      forall e ensures EcsDeltaQuery.Yielded(rows, e) <==> ModelMatches(modes, components, e) {
        assert forall i | 0 <= i < |views| ::
               ModelAccepts(modes[i], components[i], e) <==> EcsDeltaQuery.Accepts(views[i], e);
        assert forall i | 0 <= i < |views| :: EcsDeltaQuery.HasDelta(views[i], e) <==>
          modes[i] == TermRead && DiffOf(components[i].before, components[i].now, e) != DeltaNone;
      }
      forall k, i | 0 <= k < |rows| && 0 <= i < |views| && modes[i] == TermRead
        ensures i < |rows[k].terms| && ModelHolds(rows[k].terms[i], components[i], rows[k].entity)
      {
        assert EcsDeltaQuery.RowCorrect(views, rows[k])
               && EcsDeltaQuery.Holds(rows[k].terms[i], views[i], rows[k].entity);
        assert views[i].rows.LiveOk(rows[k].entity);
      }
    }
  }

  /** The components a query's terms are of. */
  ghost function Chosen<V>(m: Model<V>, ids: seq<nat>): seq<Component<V>>
    requires forall i | 0 <= i < |ids| :: ids[i] < |m.components|
  {
    seq(|ids|, i requires 0 <= i < |ids| => m.components[ids[i]])
  }

  lemma ViewsOfWorld<V>(m: Model<V>, w: WorldState<V>, ids: seq<nat>, modes: seq<TermMode>, views: seq<TermView<V>>)
    requires w.Valid() && IsModel(m, w) && |ids| == |modes| == |views| && EcsDeltaQuery.CanDeclare(modes)
    requires forall i | 0 <= i < |ids| :: ids[i] < |w.stores| && views[i] == TermView(modes[i], w.stores[ids[i]])
    ensures EcsDeltaQuery.Valid(views)
    ensures forall i | 0 <= i < |ids| :: views[i].mode == modes[i] && IsComponent(Chosen(m, ids)[i], views[i].rows)
  {
    forall i | 0 <= i < |ids| ensures views[i].rows.Valid() && views[i].rows.AllLinked() {
      assert w.StoreOk(ids[i]);
    }
  }

  /** The terms of a delta query over the components ids. */
  method TermsOf<V(==)>(world: World<V>, ids: seq<nat>, modes: seq<TermMode>) returns (terms: seq<Term<V>>)
    requires |ids| == |modes| && forall i | 0 <= i < |ids| :: ids[i] < |world.stores|
    ensures |terms| == |ids|
    ensures forall i | 0 <= i < |ids| :: Views(terms)[i] == TermView(modes[i], world.State().stores[ids[i]])
  {
    terms := seq(|ids|, i requires 0 <= i < |ids| && ids[i] < |world.stores| => Term(world.stores[ids[i]], modes[i]));
  }

  /** A delta query over the components ids of a world. */
  method QueryWorld<V(==)>(world: World<V>, ids: seq<nat>, modes: seq<TermMode>, ghost m: Model<V>)
    returns (rows: seq<EcsDeltaQuery.DeltaRow<V>>)
    requires world.Valid() && IsModel(m, world.State()) && |ids| == |modes| && EcsDeltaQuery.CanDeclare(modes)
    requires forall i | 0 <= i < |ids| :: ids[i] < |world.stores|
    ensures IsDiff(modes, Chosen(m, ids), rows)
  {
    var terms := TermsOf(world, ids, modes);
    ghost var views := Views(terms);
    ViewsOfWorld(m, world.State(), ids, modes, views);
    rows := EcsDeltaQuery.Query(terms);
    QueryIsDiff(modes, Chosen(m, ids), views, rows);
  }

  /** Over any run, what a delta query then yields is the diff between what the
      model held at the last reset and now. */
  method RunAndQuery<V(==)>(world: World<V>, ops: seq<Op<V>>, memories: seq<Memory<V>>, before: set<Entity>,
                            ids: seq<nat>, modes: seq<TermMode>, ghost m: Model<V>)
    returns (answers: seq<Answer<V>>, rows: seq<EcsDeltaQuery.DeltaRow<V>>, ghost course: Course<V>)
    requires world.Valid() && IsModel(m, world.State()) && |memories| == |ops|
    requires before <= world.entities.t.handedOut
    requires |ids| == |modes| && EcsDeltaQuery.CanDeclare(modes)
    requires forall i | 0 <= i < |ids| :: ids[i] < |world.stores|
    modifies world.entities, world.stores
    ensures course.Went(m, before) && course.ops == ops && course.answers == answers
    ensures course.states[0] == old(world.State()) && course.states[|ops|] == world.State()
    ensures NoneBornTwice(world.entities.t, course.Born(|ops|))
    ensures |course.ModelAt(m, |ops|).components| == |world.stores|
    ensures IsDiff(modes, Chosen(course.ModelAt(m, |ops|), ids), rows)
  {
    answers, course := Run(world, ops, memories, before, m);
    assert course.Reached(m, |ops|);
    rows := QueryWorld(world, ids, modes, course.ModelAt(m, |ops|));
  }
}
