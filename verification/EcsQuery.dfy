/** Queries: a backward walk of the smallest store that can drive, whose body
    may remove components of the entity it is at (ecs/query.go,
    ecs/query_gen.go). */
module EcsQuery {
  import opened Basics
  import opened EcsEntity
  import opened EcsStoreState
  import opened EcsWorld
  import opened EcsTerms

  const ROWS_PER_CHUNK: nat := 256

  /** A term names its store by its place among the world's stores. */
  datatype QueryTerm = QueryTerm(store: nat, mode: TermMode)

  /** What a query yields of one entity: per term the value at its row, which
      an optional term may lack and a filter has none of. */
  datatype QueryRow<V> = QueryRow(entity: Entity, terms: seq<Option<V>>)

  ghost predicate Valid<V>(snapshot: seq<StoreState<V>>) {
    forall j | 0 <= j < |snapshot| :: snapshot[j].Valid()
  }

  predicate TermsFit(terms: seq<QueryTerm>, stores: nat) {
    forall i | 0 <= i < |terms| :: terms[i].store < stores
  }

  /** Whether terms can make a query: one can drive it. The source panics
      otherwise. */
  predicate CanDeclare(terms: seq<QueryTerm>) {
    exists i | 0 <= i < |terms| :: terms[i].mode.Drives()
  }

  ghost predicate Accepts<V>(term: QueryTerm, s: StoreState<V>, e: Entity) {
    if term.mode.Drives() then e in s.current
    else term.mode == TermWithout ==> e !in s.current
  }

  ghost predicate Matches<V>(terms: seq<QueryTerm>, snapshot: seq<StoreState<V>>, e: Entity)
    requires TermsFit(terms, |snapshot|)
  {
    forall i | 0 <= i < |terms| :: Accepts(terms[i], snapshot[terms[i].store], e)
  }

  /** What a term yields of e. */
  ghost function Holds<V>(term: QueryTerm, s: StoreState<V>, e: Entity): Option<V> {
    if term.mode in {TermWith, TermWithout} || e !in s.current then None else Some(s.current[e])
  }

  ghost predicate RowCorrect<V>(terms: seq<QueryTerm>, snapshot: seq<StoreState<V>>, row: QueryRow<V>)
    requires TermsFit(terms, |snapshot|)
  {
    && |row.terms| == |terms|
    && forall i | 0 <= i < |terms| :: row.terms[i] == Holds(terms[i], snapshot[terms[i].store], row.entity)
  }

  /** t is s with no row moved, and nothing held changed. */
  ghost predicate OnlyMarked<V>(s: StoreState<V>, t: StoreState<V>) {
    t.Valid() && t == s.(states := t.states, changed := t.changed)
  }

  /** t is s once e's component may have been removed: the rows before e's stay
      where they were, and an observed store still knows what e held. */
  ghost predicate MayRemove<V>(s: StoreState<V>, t: StoreState<V>, e: Entity, removed: bool) {
    && s.Valid() && t.Valid()
    && (if removed then StoreLost(s, t, e) && RowsBeforeStay(s, t, e) else SameRows(s, t))
  }

  /** t holds what s does, in the same rows. */
  ghost predicate SameRows<V>(s: StoreState<V>, t: StoreState<V>) {
    && t.current == s.current && t.held == s.held && t.baseline == s.baseline && t.observation == s.observation
    && t.owners == s.owners && t.live == s.live
  }

  lemma StoresAreValid<V>(w: WorldState<V>)
    requires w.Valid()
    ensures Valid(w.stores)
  {
    forall id | 0 <= id < |w.stores| ensures w.stores[id].Valid() { assert w.StoreOk(id); }
  }

  /** Whether one of the first n terms writes store. */
  ghost predicate WritesStore(terms: seq<QueryTerm>, n: nat, store: nat)
    requires n <= |terms|
  {
    exists i :: 0 <= i < n && terms[i].store == store && terms[i].mode.Writes()
  }

  /** What the walk has marked of a store: whatever it still holds has its row in
      the state it had, but for what was yielded for writing, which is marked. */
  ghost predicate MarksYielded<V>(start: StoreState<V>, now: StoreState<V>, rows: seq<QueryRow<V>>, writes: bool) {
    start.Observes() ==>
      forall e {:trigger now.StateAt(e)} | e in now.current ::
        && e in start.current
        && now.StateAt(e) == if writes && Yielded(rows, e) then StateOnWrite(start.StateAt(e)) else start.StateAt(e)
  }

  ghost predicate AllMarked<V>(terms: seq<QueryTerm>, start: seq<StoreState<V>>, now: seq<StoreState<V>>,
                               rows: seq<QueryRow<V>>)
  {
    |now| == |start| &&
    forall j | 0 <= j < |start| :: MarksYielded(start[j], now[j], rows, WritesStore(terms, |terms|, j))
  }

  /** One more visited, its row marked if it was yielded for writing. */
  lemma MarksOneMore<V>(start: StoreState<V>, now: StoreState<V>, after: StoreState<V>, rows: seq<QueryRow<V>>,
                        yielded: Option<QueryRow<V>>, e: Entity, writes: bool)
    requires MarksYielded(start, now, rows, writes) && !Yielded(rows, e) && now.observation == start.observation
    requires MarksAt(now, after, e, yielded.Some? && writes) && (yielded.Some? ==> yielded.value.entity == e)
    ensures MarksYielded(start, after, if yielded.Some? then rows + [yielded.value] else rows, writes)
  {
    var more := if yielded.Some? then rows + [yielded.value] else rows;
    if start.Observes() {
      forall o | o in after.current
        ensures o in start.current
        ensures after.StateAt(o) == if writes && Yielded(more, o) then StateOnWrite(start.StateAt(o))
                                    else start.StateAt(o)
      {
        assert after.StateAt(o) == if yielded.Some? && writes && o == e then StateOnWrite(now.StateAt(o))
                                   else now.StateAt(o);
        if yielded.Some? {
          YieldedOneMore(rows, yielded.value, o);
        }
      }
    }
  }

  lemma YieldedOneMore<V>(rows: seq<QueryRow<V>>, row: QueryRow<V>, e: Entity)
    ensures Yielded(rows + [row], e) <==> Yielded(rows, e) || e == row.entity
  {
    var after := rows + [row];
    if Yielded(rows, e) {
      var k :| 0 <= k < |rows| && rows[k].entity == e;
      assert after[k].entity == e;
    }
    assert after[|rows|] == row;
  }

  /** Whether terms[d] drives a walk: the first of those with the fewest rows,
      among those that can. */
  ghost predicate IsDriving<V>(terms: seq<QueryTerm>, s: seq<StoreState<V>>, d: nat)
    requires TermsFit(terms, |s|)
  {
    && d < |terms| && terms[d].mode.Drives()
    && forall i | 0 <= i < |terms| && terms[i].mode.Drives() ::
         && s[terms[d].store].live <= s[terms[i].store].live
         && (i < d ==> s[terms[d].store].live < s[terms[i].store].live)
  }

  /** rows come from the last row of the driving store to its first. */
  ghost predicate Descends<V>(driving: StoreState<V>, rows: seq<QueryRow<V>>) {
    forall j, k | 0 <= j < k < |rows| ::
      && rows[j].entity in driving.rowOf && rows[k].entity in driving.rowOf
      && driving.rowOf[rows[j].entity] > driving.rowOf[rows[k].entity]
  }

  /** How a walk marks, and in which order it yields. */
  ghost predicate WalksOn<V>(terms: seq<QueryTerm>, driving: nat, start: seq<StoreState<V>>, now: seq<StoreState<V>>,
                             rows: seq<QueryRow<V>>)
  {
    AllMarked(terms, start, now, rows) && driving < |start| && Descends(start[driving], rows)
  }

  lemma DescendsOneMore<V>(driving: StoreState<V>, next: nat, rows: seq<QueryRow<V>>, row: QueryRow<V>)
    requires driving.Valid() && 0 < next <= |driving.owners| && row.entity == driving.owners[next - 1]
    requires Descends(driving, rows)
    requires forall e {:trigger Yielded(rows, e)} | Yielded(rows, e) :: e in driving.rowOf && driving.rowOf[e] >= next
    ensures Descends(driving, rows + [row])
  {
    assert driving.RowOk(next - 1);
    forall j | 0 <= j < |rows| ensures rows[j].entity in driving.rowOf && driving.rowOf[rows[j].entity] >= next {
      assert Yielded(rows, rows[j].entity);
    }
  }

  /** Picks the term that drives a walk: the first of those with the fewest
      rows. */
  method PickDriving<V(==)>(terms: seq<QueryTerm>, world: World<V>) returns (driving: nat)
    requires TermsFit(terms, |world.stores|) && CanDeclare(terms)
    ensures IsDriving(terms, world.State().stores, driving)
  {
    var picked := -1;
    for i := 0 to |terms|
      invariant -1 <= picked < i
      invariant picked < 0 ==> forall k | 0 <= k < i :: !terms[k].mode.Drives()
      invariant picked >= 0 ==> terms[picked].mode.Drives()
      invariant picked >= 0 ==> forall k | 0 <= k < i && terms[k].mode.Drives() ::
                  && world.stores[terms[picked].store].rows.live <= world.stores[terms[k].store].rows.live
                  && (k < picked ==>
                        world.stores[terms[picked].store].rows.live < world.stores[terms[k].store].rows.live)
    {
      if terms[i].mode.Drives() &&
         (picked < 0 || world.stores[terms[i].store].rows.live < world.stores[terms[picked].store].rows.live)
      {
        picked := i;
      }
    }
    driving := picked;
  }

  /** What every term yields of e, which the driving term's store holds, if
      the other terms accept it. */
  method ProbeTerms<V(==)>(terms: seq<QueryTerm>, world: World<V>, driving: nat, e: Entity)
    returns (values: Option<seq<Option<V>>>)
    requires world.Valid() && TermsFit(terms, |world.stores|)
    requires driving < |terms| && Accepts(terms[driving], world.stores[terms[driving].store].rows, e)
    ensures values.Some? <==> Matches(terms, world.State().stores, e)
    ensures values.Some? ==> RowCorrect(terms, world.State().stores, QueryRow(e, values.value))
  {
    ghost var w := world.State();
    var found: seq<Option<V>> := [];
    for i := 0 to |terms|
      invariant |found| == i
      invariant forall k | 0 <= k < i ::
        && Accepts(terms[k], w.stores[terms[k].store], e)
        && found[k] == Holds(terms[k], w.stores[terms[k].store], e)
    {
      assert w.StoreOk(terms[i].store);
      var value := world.stores[terms[i].store].Get(e);
      if i != driving && !terms[i].mode.Optional() && value.Some? == (terms[i].mode == TermWithout) {
        assert !Accepts(terms[i], w.stores[terms[i].store], e);
        return None;
      }
      found := found + [if terms[i].mode in {TermWith, TermWithout} then None else value];
    }
    return Some(found);
  }

  /** Whether e, at drivingRow of the driving store, satisfies every other
      term, and what each yields. Once e matches, the rows of the terms that
      write are marked changed. */
  method MatchEntity<V(==)>(terms: seq<QueryTerm>, world: World<V>, driving: nat, drivingRow: nat, e: Entity)
    returns (row: Option<QueryRow<V>>)
    requires world.Valid() && TermsFit(terms, |world.stores|)
    requires driving < |terms| && terms[driving].mode.Drives()
    requires var s := world.stores[terms[driving].store].rows;
             drivingRow < s.live && drivingRow < |s.owners| && s.owners[drivingRow] == e
    modifies world.stores
    ensures world.Valid()
    ensures forall j | 0 <= j < |world.stores| :: OnlyMarked(old(world.State()).stores[j], world.stores[j].rows)
    ensures row.Some? <==> Matches(terms, old(world.State()).stores, e)
    ensures row.Some? ==> row.value.entity == e && RowCorrect(terms, old(world.State()).stores, row.value)
    ensures forall j | 0 <= j < |world.stores| ::
              MarksAt(old(world.State()).stores[j], world.stores[j].rows, e,
                      row.Some? && WritesStore(terms, |terms|, j))
  {
    ghost var w := world.State();
    ghost var s := w.stores[terms[driving].store];
    assert w.StoreOk(terms[driving].store) && s.RowOk(drivingRow) && s.LiveOk(e);
    StoresAreValid(w);
    var values := ProbeTerms(terms, world, driving, e);
    if values.None? {
      return None;
    }
    MarkWritten(terms, world, e);
    row := Some(QueryRow(e, values.value));
  }

  /** Every store only marked, e's row where one of the first n terms writes. */
  ghost predicate Marks<V>(terms: seq<QueryTerm>, n: nat, s: seq<StoreState<V>>, t: seq<StoreState<V>>, e: Entity) {
    && |s| == |t| && n <= |terms| && TermsFit(terms, |s|)
    && (forall j | 0 <= j < |s| :: OnlyMarked(s[j], t[j]))
    && (forall j | 0 <= j < |s| :: MarksAt(s[j], t[j], e, WritesStore(terms, n, j)))
  }

  /** Marks changed e's row in the store of every term that writes. */
  method MarkWritten<V(==)>(terms: seq<QueryTerm>, world: World<V>, e: Entity)
    requires world.Valid() && TermsFit(terms, |world.stores|)
    modifies world.stores
    ensures world.Valid() && Marks(terms, |terms|, old(world.State()).stores, world.State().stores, e)
  {
    ghost var w := world.State();
    StoresAreValid(w);
    for i := 0 to |terms|
      invariant world.Valid() && Marks(terms, i, w.stores, world.State().stores, e)
    {
      ghost var now := world.State().stores;
      if terms[i].mode.Writes() {
        MarkRow(world, terms[i].store, e);
      }
      MarksGoOn(terms, i, w.stores, now, world.State().stores, e);
    }
  }

  /** Marking a row a term more writes, be it marked already. */
  lemma MarksAgain<V>(terms: seq<QueryTerm>, i: nat, j: nat, s: StoreState<V>, now: StoreState<V>, t: StoreState<V>,
                      e: Entity)
    requires i < |terms| && OnlyMarked(s, now) && MarksAt(s, now, e, WritesStore(terms, i, j))
    requires if terms[i].store == j && terms[i].mode.Writes() then MarksAt(now, t, e, true) else t == now
    ensures MarksAt(s, t, e, WritesStore(terms, i + 1, j))
  {
    assert WritesStore(terms, i + 1, j) <==>
           WritesStore(terms, i, j) || (terms[i].store == j && terms[i].mode.Writes());
    if s.Observes() && t != now {
      forall o | o in t.current ensures o in s.current
        && t.StateAt(o) == if o == e then StateOnWrite(s.StateAt(o)) else s.StateAt(o)
      {
        assert t.StateAt(o) == if o == e then StateOnWrite(now.StateAt(o)) else now.StateAt(o);
      }
    }
  }

  lemma MarksGoOn<V>(terms: seq<QueryTerm>, i: nat, s: seq<StoreState<V>>, now: seq<StoreState<V>>,
                     t: seq<StoreState<V>>, e: Entity)
    requires i < |terms| && Marks(terms, i, s, now, e)
    requires if terms[i].mode.Writes() then
               var id := terms[i].store;
               |t| == |now| && t == now[id := t[id]] && OnlyMarked(now[id], t[id]) && MarksAt(now[id], t[id], e, true)
             else t == now
    ensures Marks(terms, i + 1, s, t, e)
  {
    forall j | 0 <= j < |s| ensures MarksAt(s[j], t[j], e, WritesStore(terms, i + 1, j)) {
      MarksAgain(terms, i, j, s[j], now[j], t[j], e);
    }
  }

  /** Marks changed e's row in one store, if it has one. */
  method MarkRow<V(==)>(world: World<V>, id: nat, e: Entity)
    requires world.Valid() && id < |world.stores|
    modifies world.stores[id]
    ensures world.Valid() && OnlyMarked(old(world.stores[id].rows), world.stores[id].rows)
    ensures MarksAt(old(world.stores[id].rows), world.stores[id].rows, e, true)
    ensures world.State().stores == old(world.State()).stores[id := world.stores[id].rows]
  {
    assert world.State().StoreOk(id);
    var _ := world.Write(e, id);
    assert world.State().StoreOk(id);
  }

  /** The body of a query's loop, run on e: it may remove e's component from any
      store, those in removals. */
  method RunBody<V(==)>(world: World<V>, removals: set<nat>, e: Entity)
    requires world.Valid()
    modifies world.entities, world.stores
    ensures world.Valid() && SameEntities(old(world.entities.t), world.entities.t)
    ensures forall j | 0 <= j < |world.stores| ::
              && MayRemove(old(world.State()).stores[j], world.stores[j].rows, e, j in removals)
              && SameStates(old(world.State()).stores[j], world.stores[j].rows)
  {
    ghost var w := world.State();
    for j := 0 to |world.stores|
      invariant world.Valid() && SameEntities(w.table, world.entities.t)
      invariant forall k | 0 <= k < j ::
        && MayRemove(w.stores[k], world.stores[k].rows, e, k in removals)
        && SameStates(w.stores[k], world.stores[k].rows)
      invariant forall k | j <= k < |world.stores| :: world.stores[k].rows == w.stores[k]
    {
      assert w.StoreOk(j);
      if j in removals {
        var _ := world.Remove(e, j);
        assert world.State().StoreOk(j);
      }
    }
  }

  ghost predicate Yielded<V>(rows: seq<QueryRow<V>>, e: Entity) {
    exists k | 0 <= k < |rows| :: rows[k].entity == e
  }

  /** Every row yielded is right, and no entity is yielded twice. */
  ghost predicate Sound<V>(terms: seq<QueryTerm>, snapshot: seq<StoreState<V>>, rows: seq<QueryRow<V>>)
    requires TermsFit(terms, |snapshot|)
  {
    && (forall k | 0 <= k < |rows| :: RowCorrect(terms, snapshot, rows[k]))
    && (forall j, k | 0 <= j < k < |rows| :: rows[j].entity != rows[k].entity)
  }

  lemma YieldOneMore<V>(terms: seq<QueryTerm>, snapshot: seq<StoreState<V>>, rows: seq<QueryRow<V>>, row: QueryRow<V>)
    requires TermsFit(terms, |snapshot|)
    requires Sound(terms, snapshot, rows) && RowCorrect(terms, snapshot, row) && !Yielded(rows, row.entity)
    ensures Sound(terms, snapshot, rows + [row])
    ensures forall e :: Yielded(rows + [row], e) <==> Yielded(rows, e) || e == row.entity
  {
    var after := rows + [row];
    forall e ensures Yielded(after, e) <==> Yielded(rows, e) || e == row.entity { YieldedOneMore(rows, row, e); }
  }

  /** A store now holds what it did at the start, but for what the body removed
      of the entities yielded; of those an observed store still knows what they
      held. */
  ghost predicate HoldsRest<V>(start: StoreState<V>, now: StoreState<V>, rows: seq<QueryRow<V>>,
                               body: Entity -> set<nat>, store: nat)
  {
    && now.baseline == start.baseline && now.observation == start.observation
    && IsRest(start.current, now.current, rows, body, store)
    && if start.Observes() then now.held == start.held else IsRest(start.held, now.held, rows, body, store)
  }

  /** now is before without what the body removed of the entities yielded. */
  ghost predicate IsRest<V>(before: map<Entity, V>, now: map<Entity, V>, rows: seq<QueryRow<V>>,
                            body: Entity -> set<nat>, store: nat)
  {
    forall e {:trigger e in now} ::
      && (e in now <==> e in before && !(Yielded(rows, e) && store in body(e)))
      && (e in now ==> now[e] == before[e])
  }

  /** The walk with the rows from next on visited. */
  ghost predicate Walked<V>(terms: seq<QueryTerm>, body: Entity -> set<nat>, driving: nat, start: seq<StoreState<V>>,
                            now: seq<StoreState<V>>, next: nat, rows: seq<QueryRow<V>>)
    requires TermsFit(terms, |start|) && driving < |start|
  {
    && |now| == |start| && Valid(now) && Valid(start)
    && next <= start[driving].live && next <= now[driving].live
    && now[driving].owners[..next] == start[driving].owners[..next]
    && Sound(terms, start, rows)
    && (forall e {:trigger Yielded(rows, e)} ::
          Yielded(rows, e) <==>
              Matches(terms, start, e) && e in start[driving].rowOf && start[driving].rowOf[e] >= next)
    && (forall j | 0 <= j < |now| :: HoldsRest(start[j], now[j], rows, body, j))
  }

  /** An entity not visited yet matches, and yields, as it did at the start. */
  lemma UnvisitedUnchanged<V>(terms: seq<QueryTerm>, body: Entity -> set<nat>, driving: nat, start: seq<StoreState<V>>,
                              now: seq<StoreState<V>>, next: nat, rows: seq<QueryRow<V>>, e: Entity)
    requires TermsFit(terms, |start|) && driving < |start| && Walked(terms, body, driving, start, now, next, rows)
    requires !Yielded(rows, e)
    ensures Matches(terms, now, e) <==> Matches(terms, start, e)
    ensures forall row: QueryRow<V> | row.entity == e :: RowCorrect(terms, now, row) <==> RowCorrect(terms, start, row)
  {
    forall i | 0 <= i < |terms|
      ensures Accepts(terms[i], now[terms[i].store], e) <==> Accepts(terms[i], start[terms[i].store], e)
      ensures Holds(terms[i], now[terms[i].store], e) == Holds(terms[i], start[terms[i].store], e)
    {
      assert HoldsRest(start[terms[i].store], now[terms[i].store], rows, body, terms[i].store);
    }
  }

  /** The rows yielded once one more row, e's, is visited. */
  lemma VisitKeepsYields<V>(terms: seq<QueryTerm>, start: seq<StoreState<V>>, driving: nat, next: nat,
                            rows: seq<QueryRow<V>>, row: Option<QueryRow<V>>)
    requires TermsFit(terms, |start|) && driving < |start| && Valid(start) && 0 < next <= start[driving].live
    requires Sound(terms, start, rows)
    requires forall e {:trigger Yielded(rows, e)} ::
               Yielded(rows, e) <==>
                   Matches(terms, start, e) && e in start[driving].rowOf && start[driving].rowOf[e] >= next
    requires row.Some? <==> Matches(terms, start, start[driving].owners[next - 1])
    requires row.Some? ==> row.value.entity == start[driving].owners[next - 1] && RowCorrect(terms, start, row.value)
    ensures var after := if row.Some? then rows + [row.value] else rows;
            && Sound(terms, start, after)
            && forall e {:trigger Yielded(after, e)} ::
                 Yielded(after, e) <==>
                     Matches(terms, start, e) && e in start[driving].rowOf && start[driving].rowOf[e] >= next - 1
  {
    var d := start[driving];
    assert d.RowOk(next - 1);
    assert !Yielded(rows, d.owners[next - 1]);
    if row.Some? {
      YieldOneMore(terms, start, rows, row.value);
    }
    var after := if row.Some? then rows + [row.value] else rows;
    forall e ensures Yielded(after, e) <==> Matches(terms, start, e) && e in d.rowOf && d.rowOf[e] >= next - 1 {
      assert d.ContentOk(e);
      assert Yielded(rows, e) <==> Matches(terms, start, e) && e in d.rowOf && d.rowOf[e] >= next;
    }
  }

  /** One row visited: its owner, marked if it writes, and then what the body
      removed of it. */
  lemma VisitKeepsWalked<V>(terms: seq<QueryTerm>, body: Entity -> set<nat>, driving: nat, start: seq<StoreState<V>>,
                            now: seq<StoreState<V>>, after: seq<StoreState<V>>, next: nat, rows: seq<QueryRow<V>>,
                            row: Option<QueryRow<V>>)
    requires TermsFit(terms, |start|) && driving < |start|
    requires next > 0 && Walked(terms, body, driving, start, now, next, rows) && |after| == |now|
    requires var e := start[driving].owners[next - 1];
             && (row.Some? <==> Matches(terms, now, e))
             && (row.Some? ==> row.value.entity == e && RowCorrect(terms, now, row.value))
             && (forall j | 0 <= j < |now| :: MayRemove(now[j], after[j], e, row.Some? && j in body(e)))
    ensures Walked(terms, body, driving, start, after, next - 1, if row.Some? then rows + [row.value] else rows)
    ensures !Yielded(rows, start[driving].owners[next - 1])
  {
    var e := start[driving].owners[next - 1];
    assert start[driving].RowOk(next - 1);
    assert !Yielded(rows, e);
    UnvisitedUnchanged(terms, body, driving, start, now, next, rows, e);
    var yielded := if row.Some? then rows + [row.value] else rows;
    VisitKeepsYields(terms, start, driving, next, rows, row);
    forall j | 0 <= j < |now| ensures after[j].Valid() && HoldsRest(start[j], after[j], yielded, body, j) {
      assert HoldsRest(start[j], now[j], rows, body, j) && MayRemove(now[j], after[j], e, row.Some? && j in body(e));
      if row.Some? {
        YieldOneMore(terms, start, rows, row.value);
      }
    }
    EarlierRowsStay(start[driving], now[driving], after[driving], next, e, row.Some? && driving in body(e));
  }

  lemma EarlierRowsStay<V>(start: StoreState<V>, now: StoreState<V>, after: StoreState<V>, next: nat, e: Entity,
                           removed: bool)
    requires start.Valid() && now.Valid() && 0 < next <= start.live && next <= now.live
    requires now.owners[..next] == start.owners[..next] && start.owners[next - 1] == e
    requires MayRemove(now, after, e, removed)
    ensures next - 1 <= after.live && after.owners[..next - 1] == start.owners[..next - 1]
  {
    forall k | 0 <= k < next - 1 ensures start.owners[k] != e {
      assert start.RowOk(k) && start.RowOk(next - 1);
    }
    var p: nat := next - 1;
    assert now.owners[..p] == now.owners[..next][..p];
    assert start.owners[..p] == start.owners[..next][..p];
    assert SameBefore(now, after, p);
  }

  /** Visits row, the last not visited yet. */
  method Visit<V(==)>(terms: seq<QueryTerm>, world: World<V>, body: Entity -> set<nat>, driving: nat, row: nat,
                      ghost start: seq<StoreState<V>>, rows: seq<QueryRow<V>>)
    returns (after: seq<QueryRow<V>>)
    requires world.Valid() && |start| == |world.stores| && TermsFit(terms, |start|)
    requires driving < |terms| && terms[driving].mode.Drives()
    requires Walked(terms, body, terms[driving].store, start, world.State().stores, row + 1, rows)
    requires WalksOn(terms, terms[driving].store, start, world.State().stores, rows)
    modifies world.entities, world.stores
    ensures world.Valid() && SameEntities(old(world.entities.t), world.entities.t)
    ensures Walked(terms, body, terms[driving].store, start, world.State().stores, row, after)
    ensures WalksOn(terms, terms[driving].store, start, world.State().stores, after)
  {
    ghost var now := world.State().stores;
    ghost var d := terms[driving].store;
    var e := world.stores[terms[driving].store].rows.owners[row];
    assert e == now[d].owners[..row + 1][row] == start[d].owners[..row + 1][row];
    var yielded := MatchEntity(terms, world, driving, row, e);
    ghost var marked := world.State().stores;
    if yielded.Some? {
      RunBody(world, body(e), e);
      after := rows + [yielded.value];
    } else {
      after := rows;
    }
    VisitKeepsAll(terms, body, d, start, now, marked, world.State().stores, row + 1, rows, yielded);
  }

  /** A row visited: its owner, if yielded, is marked where it is yielded for
      writing, and then the body removes of it. */
  lemma VisitKeepsAll<V>(terms: seq<QueryTerm>, body: Entity -> set<nat>, driving: nat, start: seq<StoreState<V>>,
                         now: seq<StoreState<V>>, marked: seq<StoreState<V>>, after: seq<StoreState<V>>, next: nat,
                         rows: seq<QueryRow<V>>, row: Option<QueryRow<V>>)
    requires TermsFit(terms, |start|) && WalksOn(terms, driving, start, now, rows)
    requires next > 0 && Walked(terms, body, driving, start, now, next, rows) && |after| == |marked| == |now|
    requires var e := start[driving].owners[next - 1];
             && (row.Some? <==> Matches(terms, now, e))
             && (row.Some? ==> row.value.entity == e && RowCorrect(terms, now, row.value))
             && forall j | 0 <= j < |now| ::
                  && OnlyMarked(now[j], marked[j])
                  && MarksAt(now[j], marked[j], e, row.Some? && WritesStore(terms, |terms|, j))
                  && if row.Some? then
                       MayRemove(marked[j], after[j], e, j in body(e)) && SameStates(marked[j], after[j])
                     else after[j] == marked[j]
    ensures var more := if row.Some? then rows + [row.value] else rows;
            Walked(terms, body, driving, start, after, next - 1, more) && WalksOn(terms, driving, start, after, more)
  {
    var e := start[driving].owners[next - 1];
    forall j | 0 <= j < |now| ensures MayRemove(now[j], after[j], e, row.Some? && j in body(e)) {
      MarkedThenRemoved(now[j], marked[j], after[j], e, row.Some? && j in body(e));
    }
    VisitKeepsWalked(terms, body, driving, start, now, after, next, rows, row);
    forall j | 0 <= j < |now| ensures now[j].observation == start[j].observation {
      assert HoldsRest(start[j], now[j], rows, body, j);
    }
    VisitMarks(terms, start, now, marked, after, rows, row, e);
    if row.Some? {
      DescendsOneMore(start[driving], next, rows, row.value);
    }
  }

  lemma MarksThenSame<V>(now: StoreState<V>, marked: StoreState<V>, after: StoreState<V>, e: Entity, marks: bool)
    requires OnlyMarked(now, marked) && MarksAt(now, marked, e, marks) && SameStates(marked, after)
    ensures MarksAt(now, after, e, marks)
  {
    if now.Observes() {
      forall o | o in after.current
        ensures o in now.current
          && after.StateAt(o) == if marks && o == e then StateOnWrite(now.StateAt(o)) else now.StateAt(o)
      {
        assert after.StateAt(o) == marked.StateAt(o);
      }
    }
  }

  lemma VisitMarks<V>(terms: seq<QueryTerm>, start: seq<StoreState<V>>, now: seq<StoreState<V>>,
                      marked: seq<StoreState<V>>, after: seq<StoreState<V>>, rows: seq<QueryRow<V>>,
                      yielded: Option<QueryRow<V>>, e: Entity)
    requires AllMarked(terms, start, now, rows) && |after| == |marked| == |now| && !Yielded(rows, e)
    requires yielded.Some? ==> yielded.value.entity == e
    requires forall j | 0 <= j < |now| ::
               && now[j].observation == start[j].observation && OnlyMarked(now[j], marked[j])
               && MarksAt(now[j], marked[j], e, yielded.Some? && WritesStore(terms, |terms|, j))
               && SameStates(marked[j], after[j])
    ensures AllMarked(terms, start, after, if yielded.Some? then rows + [yielded.value] else rows)
  {
    var more := if yielded.Some? then rows + [yielded.value] else rows;
    forall j | 0 <= j < |start|
      ensures MarksYielded(start[j], after[j], more, WritesStore(terms, |terms|, j))
    {
      assert MarksYielded(start[j], now[j], rows, WritesStore(terms, |terms|, j));
      MarksThenSame(now[j], marked[j], after[j], e, yielded.Some? && WritesStore(terms, |terms|, j));
      MarksOneMore(start[j], now[j], after[j], rows, yielded, e, WritesStore(terms, |terms|, j));
    }
  }

  lemma MarkedThenRemoved<V>(now: StoreState<V>, marked: StoreState<V>, after: StoreState<V>, e: Entity, removed: bool)
    requires now.Valid() && OnlyMarked(now, marked)
    requires MayRemove(marked, after, e, removed) || (!removed && after == marked)
    ensures MayRemove(now, after, e, removed)
  {
    if removed {
      forall p: nat | p <= now.live && e !in now.owners[..p] ensures SameBefore(now, after, p) {
        assert SameBefore(marked, after, p);
      }
    }
  }

  /** How far a walk goes into the driving store's rows to end chunk. */
  ghost function ChunkEnd<V>(s: StoreState<V>, chunk: nat): int {
    chunk * ROWS_PER_CHUNK + Min(s.live - chunk * ROWS_PER_CHUNK, ROWS_PER_CHUNK)
  }

  function ChunkCount(live: nat): nat {
    (live + ROWS_PER_CHUNK - 1) / ROWS_PER_CHUNK
  }

  /** The walk with the chunks from c on visited. */
  ghost predicate AtChunk<V>(terms: seq<QueryTerm>, body: Entity -> set<nat>, driving: nat, start: seq<StoreState<V>>,
                             now: seq<StoreState<V>>, c: nat, rows: seq<QueryRow<V>>)
    requires TermsFit(terms, |start|) && driving < |start| == |now|
  {
    if c == 0 then Walked(terms, body, driving, start, now, 0, rows)
    else
      && (c - 1) * ROWS_PER_CHUNK <= now[driving].live
      && Walked(terms, body, driving, start, now, ChunkEnd(now[driving], c - 1), rows)
  }

  lemma StartsAtChunk<V>(terms: seq<QueryTerm>, body: Entity -> set<nat>, driving: nat, start: seq<StoreState<V>>)
    requires TermsFit(terms, |start|) && driving < |start| && Valid(start)
    requires exists i | 0 <= i < |terms| :: terms[i].mode.Drives() && terms[i].store == driving
    ensures AtChunk(terms, body, driving, start, start, ChunkCount(start[driving].live), [])
  {
    StartsWalked(terms, body, driving, start);
    var live, c := start[driving].live, ChunkCount(start[driving].live);
    if c > 0 {
      assert ChunkEnd(start[driving], c - 1) == live;
    }
  }

  /** Once a chunk is walked, the rows of the one before are all still there. */
  lemma EarlierChunkIsFull<V>(terms: seq<QueryTerm>, body: Entity -> set<nat>, driving: nat, start: seq<StoreState<V>>,
                              now: seq<StoreState<V>>, c: nat, rows: seq<QueryRow<V>>)
    requires TermsFit(terms, |start|) && driving < |start| == |now|
    requires Walked(terms, body, driving, start, now, c * ROWS_PER_CHUNK, rows)
    ensures AtChunk(terms, body, driving, start, now, c, rows)
  {
    if c > 0 {
      assert ChunkEnd(now[driving], c - 1) == c * ROWS_PER_CHUNK;
    }
  }

  /** Visits count rows from first on, from the last of them. */
  method WalkRows<V(==)>(terms: seq<QueryTerm>, world: World<V>, body: Entity -> set<nat>, driving: nat, first: nat,
                         count: nat, ghost start: seq<StoreState<V>>, before: seq<QueryRow<V>>)
    returns (rows: seq<QueryRow<V>>)
    requires world.Valid() && |start| == |world.stores| && TermsFit(terms, |start|)
    requires driving < |terms| && terms[driving].mode.Drives()
    requires Walked(terms, body, terms[driving].store, start, world.State().stores, first + count, before)
    requires WalksOn(terms, terms[driving].store, start, world.State().stores, before)
    modifies world.entities, world.stores
    ensures world.Valid() && SameEntities(old(world.entities.t), world.entities.t)
    ensures Walked(terms, body, terms[driving].store, start, world.State().stores, first, rows)
    ensures WalksOn(terms, terms[driving].store, start, world.State().stores, rows)
  {
    rows := before;
    for r := count downto 0
      invariant world.Valid() && SameEntities(old(world.entities.t), world.entities.t)
      invariant Walked(terms, body, terms[driving].store, start, world.State().stores, first + r, rows)
      invariant WalksOn(terms, terms[driving].store, start, world.State().stores, rows)
    {
      rows := Visit(terms, world, body, driving, first + r, start, rows);
    }
  }

  /** Visits the rows of one chunk, from its last. The rows of a chunk are
      counted once, as the walk comes to it. */
  method WalkChunk<V(==)>(terms: seq<QueryTerm>, world: World<V>, body: Entity -> set<nat>, driving: nat, chunk: nat,
                          ghost start: seq<StoreState<V>>, before: seq<QueryRow<V>>)
    returns (rows: seq<QueryRow<V>>)
    requires world.Valid() && |start| == |world.stores| && TermsFit(terms, |start|)
    requires driving < |terms| && terms[driving].mode.Drives()
    requires AtChunk(terms, body, terms[driving].store, start, world.State().stores, chunk + 1, before)
    requires WalksOn(terms, terms[driving].store, start, world.State().stores, before)
    modifies world.entities, world.stores
    ensures world.Valid() && SameEntities(old(world.entities.t), world.entities.t)
    ensures AtChunk(terms, body, terms[driving].store, start, world.State().stores, chunk, rows)
    ensures WalksOn(terms, terms[driving].store, start, world.State().stores, rows)
  {
    var first := chunk * ROWS_PER_CHUNK;
    var count := Min(world.stores[terms[driving].store].rows.live - first, ROWS_PER_CHUNK);
    rows := WalkRows(terms, world, body, driving, first, count, start, before);
    EarlierChunkIsFull(terms, body, terms[driving].store, start, world.State().stores, chunk, rows);
  }

  /** Walks the driving store's chunks, from its last. */
  method WalkChunks<V(==)>(terms: seq<QueryTerm>, world: World<V>, body: Entity -> set<nat>, driving: nat,
                           ghost start: seq<StoreState<V>>)
    returns (rows: seq<QueryRow<V>>)
    requires world.Valid() && TermsFit(terms, |world.stores|) && start == world.State().stores
    requires driving < |terms| && terms[driving].mode.Drives()
    modifies world.entities, world.stores
    ensures world.Valid() && SameEntities(old(world.entities.t), world.entities.t)
    ensures AtChunk(terms, body, terms[driving].store, start, world.State().stores, 0, rows)
    ensures WalksOn(terms, terms[driving].store, start, world.State().stores, rows)
  {
    rows := [];
    ghost var d := terms[driving].store;
    StoresAreValid(world.State());
    StartsAtChunk(terms, body, d, start);
    var chunks := ChunkCount(world.stores[terms[driving].store].rows.live);
    for c := chunks downto 0
      invariant world.Valid() && SameEntities(old(world.entities.t), world.entities.t)
      invariant AtChunk(terms, body, d, start, world.State().stores, c, rows)
      invariant WalksOn(terms, terms[driving].store, start, world.State().stores, rows)
    {
      rows := WalkChunk(terms, world, body, driving, c, start, rows);
    }
  }

  /** What is yielded for writing is marked: whatever is written there is reported. */
  ghost predicate MarkedForWriting<V>(term: QueryTerm, s: StoreState<V>, e: Entity) {
    term.mode in {TermWrite, TermOptionalWrite} && s.Observes() && e in s.current ==> s.StateAt(e) != RowUnchanged
  }

  lemma WrittenAreMarked<V>(terms: seq<QueryTerm>, start: seq<StoreState<V>>, now: seq<StoreState<V>>,
                            rows: seq<QueryRow<V>>)
    requires TermsFit(terms, |start|) && AllMarked(terms, start, now, rows)
    requires forall j | 0 <= j < |start| :: now[j].observation == start[j].observation
    ensures forall k, i | 0 <= k < |rows| && 0 <= i < |terms| ::
              MarkedForWriting(terms[i], now[terms[i].store], rows[k].entity)
  {
    forall k, i | 0 <= k < |rows| && 0 <= i < |terms|
      ensures MarkedForWriting(terms[i], now[terms[i].store], rows[k].entity)
    {
      var j, e := terms[i].store, rows[k].entity;
      assert MarksYielded(start[j], now[j], rows, WritesStore(terms, |terms|, j)) && Yielded(rows, e);
      if terms[i].mode in {TermWrite, TermOptionalWrite} && now[j].Observes() && e in now[j].current {
        assert now[j].StateAt(e) == StateOnWrite(start[j].StateAt(e));
      }
    }
  }

  /** What was yielded for writing is marked and nothing else is, and rows come from
      the driving store's last row to its first. */
  ghost predicate MarksInOrder<V>(terms: seq<QueryTerm>, start: seq<StoreState<V>>, now: seq<StoreState<V>>,
                                  rows: seq<QueryRow<V>>)
    requires TermsFit(terms, |start|)
  {
    && AllMarked(terms, start, now, rows)
    && (forall k, i | 0 <= k < |rows| && 0 <= i < |terms| ::
          MarkedForWriting(terms[i], now[terms[i].store], rows[k].entity))
    && (forall d: nat | IsDriving(terms, start, d) :: Descends(start[terms[d].store], rows))
  }

  lemma WalkMarksInOrder<V>(terms: seq<QueryTerm>, body: Entity -> set<nat>, driving: nat, start: seq<StoreState<V>>,
                            now: seq<StoreState<V>>, rows: seq<QueryRow<V>>)
    requires TermsFit(terms, |start|) && IsDriving(terms, start, driving) && |now| == |start|
    requires WalksOn(terms, terms[driving].store, start, now, rows)
    requires forall j | 0 <= j < |now| :: HoldsRest(start[j], now[j], rows, body, j)
    ensures MarksInOrder(terms, start, now, rows)
  {
    forall j | 0 <= j < |now| ensures now[j].observation == start[j].observation {
      assert HoldsRest(start[j], now[j], rows, body, j);
    }
    WrittenAreMarked(terms, start, now, rows);
    forall d: nat | IsDriving(terms, start, d) ensures d == driving { }
  }

  /** Walks the entities every term accepts, backwards from the driving store's
      last row, chunk by chunk, running body on each. */
  method All<V(==)>(terms: seq<QueryTerm>, world: World<V>, body: Entity -> set<nat>) returns (rows: seq<QueryRow<V>>)
    requires world.Valid() && TermsFit(terms, |world.stores|) && CanDeclare(terms)
    modifies world.entities, world.stores
    ensures world.Valid() && SameEntities(old(world.entities.t), world.entities.t)
    ensures Sound(terms, old(world.State()).stores, rows)
    ensures forall e :: Yielded(rows, e) <==> Matches(terms, old(world.State()).stores, e)
    ensures forall j | 0 <= j < |world.stores| ::
              HoldsRest(old(world.State()).stores[j], world.stores[j].rows, rows, body, j)
    ensures MarksInOrder(terms, old(world.State()).stores, world.State().stores, rows)
  {
    ghost var start := world.State().stores;
    var driving := PickDriving(terms, world);
    rows := WalkChunks(terms, world, body, driving, start);
    WalkedEverything(terms, body, driving, start, world.State().stores, rows);
    WalkMarksInOrder(terms, body, driving, start, world.State().stores, rows);
  }

  lemma WalkedEverything<V>(terms: seq<QueryTerm>, body: Entity -> set<nat>, driving: nat, start: seq<StoreState<V>>,
                            now: seq<StoreState<V>>, rows: seq<QueryRow<V>>)
    requires TermsFit(terms, |start|) && driving < |terms| && terms[driving].mode.Drives()
    requires |now| == |start| && AtChunk(terms, body, terms[driving].store, start, now, 0, rows)
    ensures Sound(terms, start, rows) && Valid(now)
    ensures forall e :: Yielded(rows, e) <==> Matches(terms, start, e)
    ensures forall j | 0 <= j < |now| :: HoldsRest(start[j], now[j], rows, body, j)
  {
    var d := start[terms[driving].store];
    forall e ensures Yielded(rows, e) <==> Matches(terms, start, e) {
      assert Accepts(terms[driving], d, e) ==> e in d.current;
      assert d.LiveOk(e);
      assert Yielded(rows, e) <==> Matches(terms, start, e) && e in d.rowOf && d.rowOf[e] >= 0;
    }
  }

  lemma StartsWalked<V>(terms: seq<QueryTerm>, body: Entity -> set<nat>, driving: nat, start: seq<StoreState<V>>)
    requires TermsFit(terms, |start|) && driving < |start| && Valid(start)
    requires exists i | 0 <= i < |terms| :: terms[i].mode.Drives() && terms[i].store == driving
    ensures Walked(terms, body, driving, start, start, start[driving].live, [])
  {
    forall e | Matches(terms, start, e)
      ensures e in start[driving].rowOf ==> start[driving].rowOf[e] < start[driving].live
    {
      var i :| 0 <= i < |terms| && terms[i].mode.Drives() && terms[i].store == driving;
      assert Accepts(terms[i], start[driving], e) && start[driving].LiveOk(e);
    }
  }
}
