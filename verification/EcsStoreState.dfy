/** What a store's fields must satisfy, and that each of its changes keeps it
    (ecs/store.go). The store itself, which makes the changes in place, is in
    EcsStore: what its methods come to is named here, by a function of the
    fields before, and a lemma says that it is as valid as they were. */
module EcsStoreState {
  import opened Basics
  import opened EcsEntity

  /** RowRemoved and RowDiscarded rows are in the tail, after the live rows. */
  datatype RowState = RowUnchanged | RowChanged | RowAdded | RowRemoved | RowDiscarded {
    predicate InTail() {
      RowRemoved? || RowDiscarded?
    }

    /** Whether the row's owner held a value at the last reset. */
    predicate HadBaseline() {
      RowUnchanged? || RowChanged? || RowRemoved?
    }
  }

  /** The listing of the entities whose rows left RowUnchanged, which stops once
      it overflows. at says where it has each of its entities, so it has none
      twice. */
  datatype ChangeList = ChangeList(entities: seq<Entity>, ghost at: map<Entity, nat>, overflowed: bool) {
    ghost predicate PlaceOk(i: nat) {
      i < |entities| ==> entities[i] in at && at[entities[i]] == i
    }

    ghost predicate Has(e: Entity) {
      e in at ==> at[e] < |entities| && entities[at[e]] == e
    }

    ghost predicate Valid() {
      !overflowed ==>
        && (forall i: nat {:trigger PlaceOk(i)} :: PlaceOk(i))
        && (forall e {:trigger Has(e)} :: Has(e))
    }

    /** The listing after, when e is listed: it holds e too, or has stopped. */
    ghost predicate Lists(e: Entity, after: ChangeList) {
      after.Valid() && (!after.overflowed ==> !overflowed && after.at.Keys == at.Keys + {e})
    }
  }

  lemma AppendLists(before: ChangeList, e: Entity)
    requires before.Valid() && (!before.overflowed ==> e !in before.at)
    ensures before.Lists(e, before.(entities := before.entities + [e], at := before.at[e := |before.entities|]))
  {
    var after := before.(entities := before.entities + [e], at := before.at[e := |before.entities|]);
    if !before.overflowed {
      forall i: nat ensures after.PlaceOk(i) { assert before.PlaceOk(i); }
      forall o ensures after.Has(o) { assert before.Has(o); }
    }
  }

  datatype Delta = DeltaNone | DeltaAdded | DeltaChanged | DeltaRemoved

  /** What happened to e between two contents of a store: the reference every
      delta is compared with. */
  ghost function DiffOf<V>(baseline: map<Entity, V>, current: map<Entity, V>, e: Entity): Delta {
    if e in current then
      if e !in baseline then DeltaAdded
      else if baseline[e] == current[e] then DeltaNone
      else DeltaChanged
    else if e in baseline then DeltaRemoved
    else DeltaNone
  }

  /** Whether a store keeps changes for observers: one with an observer starts
      at the world's first observation reset. */
  datatype Observation = Unobserved | ObserverWaiting | Observed

  /** A store's fields. links maps an index to the row it leads to; a row in the
      tail stays linked unless another owner with its index took the link. The
      ghost ones say what the rows mean:
        rowOf     every owner's row,
        held      what every owner of a row, live or in the tail, last held,
        current   what every entity holds now,
        baseline  what every entity held at the last reset. */
  datatype StoreState<V(==)> = StoreState(
    owners: seq<Entity>, values: seq<V>, shadows: seq<V>, states: seq<RowState>,
    links: map<nat, nat>, live: nat, observation: Observation, changed: ChangeList,
    ghost rowOf: map<Entity, nat>, ghost held: map<Entity, V>,
    ghost current: map<Entity, V>, ghost baseline: map<Entity, V>)
  {
    predicate Observes() {
      observation == Observed
    }

    ghost predicate Shape() {
      && |values| == |owners|
      && live <= |owners|
      && (Observes() ==> |shadows| == |owners| && |states| == |owners|)
      && (!Observes() ==> live == |owners| && shadows == [] && states == [] && baseline == map[])
    }

    /** rowOf inverts owners. */
    ghost predicate RowOk(r: nat) {
      r < |owners| ==> owners[r] in rowOf && rowOf[owners[r]] == r
    }

    /** A link leads to a row with its index. */
    ghost predicate LinkOk(index: nat) {
      index in links ==> links[index] < |owners| && owners[links[index]].index == index
    }

    /** e's row holds what the ghost maps say, wherever it is. */
    ghost predicate ContentOk(e: Entity)
      requires Shape()
    {
      && (e in held <==> e in rowOf)
      && (e in baseline ==> e in rowOf)
      && (e in rowOf ==>
            var r := rowOf[e];
            && r < |owners| && owners[r] == e
            && held[e] == values[r]
            && (Observes() ==>
                  && (e in baseline <==> states[r].HadBaseline())
                  && (e in baseline ==> baseline[e] == shadows[r])
                  && (states[r] == RowUnchanged ==> values[r] == shadows[r])))
    }

    ghost predicate IsLinked(e: Entity) {
      e in rowOf && e.index in links && links[e.index] == rowOf[e]
    }

    /** Until the listing stops, it names the owners of the rows that left
        RowUnchanged, and every row can be found by its owner. */
    ghost predicate ListingOk(e: Entity)
      requires Shape()
    {
      Observes() && !changed.overflowed ==>
        && (e in changed.at ==> e in rowOf)
        && (e in rowOf ==> IsLinked(e))
        && (e in rowOf && rowOf[e] < |owners| ==> (e in changed.at <==> states[rowOf[e]] != RowUnchanged))
    }

    /** Live rows come first, and are exactly what the store holds now. */
    ghost predicate LiveOk(e: Entity)
      requires Shape()
    {
      && (e in current <==> e in rowOf && rowOf[e] < live)
      && (e in current ==> e in held && current[e] == held[e])
      && (e in current ==> IsLinked(e))
      && (Observes() && e in rowOf && rowOf[e] < |owners| ==> (rowOf[e] >= live <==> states[rowOf[e]].InTail()))
    }

    /** What holds whichever rows are live. */
    ghost predicate Coherent() {
      && Shape()
      && (forall r: nat {:trigger RowOk(r)} :: RowOk(r))
      && (forall index: nat {:trigger LinkOk(index)} :: LinkOk(index))
      && (forall e {:trigger ContentOk(e)} :: ContentOk(e))
      && (forall e {:trigger ListingOk(e)} :: ListingOk(e))
      && changed.Valid()
    }

    ghost predicate Valid() {
      Coherent() && forall e {:trigger LiveOk(e)} :: LiveOk(e)
    }

    /** e's live row. */
    function Row(e: Entity): (row: Option<nat>)
      requires Valid()
      ensures row.Some? <==> e in current
      ensures row.Some? ==> row.value < live && row.value < |owners| && owners[row.value] == e
    {
      assert LinkOk(e.index) && LiveOk(e) && ContentOk(e);
      if e.index !in links then None
      else
        var row := links[e.index];
        assert RowOk(row);
        if row < live && owners[row] == e then Some(row) else None
    }

    /** What happened to the owner of row, live or in the tail. */
    function DeltaAt(row: nat): (delta: Delta)
      requires Valid() && Observes() && row < |owners|
      ensures delta == DiffOf(baseline, current, owners[row])
    {
      assert RowOk(row) && LiveOk(owners[row]) && ContentOk(owners[row]);
      match states[row]
      case RowAdded => DeltaAdded
      case RowChanged => if values[row] == shadows[row] then DeltaNone else DeltaChanged
      case RowRemoved => DeltaRemoved
      case _ => DeltaNone
    }

    /** e's row, live or removed this window, unless it lost its link. */
    function ReportedRow(e: Entity): (row: Option<nat>)
      requires Valid() && Observes()
      ensures row.Some? <==> IsLinked(e) && (e in current || e in baseline)
      ensures row.Some? ==> row.value < |owners| && owners[row.value] == e
    {
      assert LinkOk(e.index) && LiveOk(e) && ContentOk(e);
      if e.index !in links then None
      else
        var row := links[e.index];
        assert RowOk(row);
        if owners[row] == e && (row < live || states[row] == RowRemoved) then Some(row) else None
    }

    /** e's row in the tail. */
    function TailRow(e: Entity): (row: Option<nat>)
      requires Valid()
      ensures row.Some? <==> IsLinked(e) && rowOf[e] >= live
      ensures row.Some? ==> row.value == rowOf[e] < |owners| && owners[row.value] == e
    {
      assert LinkOk(e.index) && ContentOk(e);
      if e.index !in links then None
      else
        var row := links[e.index];
        assert RowOk(row);
        if row >= live && owners[row] == e then Some(row) else None
    }

    /** How many rows a delta query, and the reset, visit. */
    function WalkedRows(): nat {
      if changed.overflowed then |owners| else |changed.entities|
    }

    function ListedRow(i: nat): (row: nat)
      requires Valid() && Observes() && !changed.overflowed && i < |changed.entities|
      ensures changed.entities[i].index in links && row == links[changed.entities[i].index]
      ensures row < |owners| && owners[row] == changed.entities[i] && states[row] != RowUnchanged
    {
      assert changed.PlaceOk(i) && ListingOk(changed.entities[i]) && ContentOk(changed.entities[i]);
      links[changed.entities[i].index]
    }

    /** The state of e's row. */
    ghost function StateAt(e: Entity): RowState {
      if e in rowOf && rowOf[e] < |states| then states[rowOf[e]] else RowDiscarded
    }

    /** No two owners share an index, so every row is linked. */
    ghost predicate AllLinked() {
      forall e {:trigger IsLinked(e)} | e in rowOf :: IsLinked(e)
    }

    /** Whether e may be given a row: its index has no live row, and e's own
        row in the tail, if any, was not superseded by another owner's. */
    ghost predicate CanAdd(e: Entity) {
      && (e.index in links ==> links[e.index] >= live)
      && (e in rowOf ==> IsLinked(e))
    }
  }

  /** Of two owners with one index, a live one hides the other: whatever became
      of it is not reported. */
  lemma OneOwnerIsReported<V>(s: StoreState<V>, e: Entity, other: Entity)
    requires s.Valid() && s.Observes() && e in s.current && other != e && other.index == e.index
    ensures !s.IsLinked(other) && s.ReportedRow(other).None?
  {
    assert s.LiveOk(e) && s.ContentOk(e) && s.ContentOk(other);
  }

  ghost function ValueSet<V>(s: StoreState<V>, row: nat, value: V): StoreState<V>
    requires s.Shape() && row < |s.owners|
  {
    var e := s.owners[row];
    s.(values := s.values[row := value], held := s.held[e := value], current := s.current[e := value])
  }

  lemma ValueSetKeepsValid<V>(s: StoreState<V>, row: nat, value: V)
    requires s.Valid() && row < s.live
    requires s.Observes() ==> s.states[row] != RowUnchanged
    ensures ValueSet(s, row, value).Valid()
  {
    var t := ValueSet(s, row, value);
    assert s.RowOk(row);
    forall r: nat ensures t.RowOk(r) { assert s.RowOk(r); }
    forall i: nat ensures t.LinkOk(i) { assert s.LinkOk(i); }
    forall e ensures t.ContentOk(e) { assert s.ContentOk(e); }
    forall e ensures t.ListingOk(e) { assert s.ListingOk(e); }
    forall e ensures t.LiveOk(e) { assert s.LiveOk(e) && s.ContentOk(e); }
  }

  /** The owner of row leaves RowUnchanged for state. */
  ghost function Marked<V>(s: StoreState<V>, row: nat, state: RowState, changed: ChangeList): StoreState<V>
    requires s.Shape() && s.Observes() && row < |s.owners|
  {
    s.(states := s.states[row := state], changed := changed)
  }

  lemma MarkedKeepsValid<V>(s: StoreState<V>, row: nat, changed: ChangeList)
    requires s.Valid() && s.Observes() && row < s.live && s.states[row] == RowUnchanged
    requires s.changed.Lists(s.owners[row], changed)
    ensures Marked(s, row, RowChanged, changed).Valid()
  {
    var t := Marked(s, row, RowChanged, changed);
    assert s.RowOk(row);
    forall r: nat ensures t.RowOk(r) { assert s.RowOk(r); }
    forall i: nat ensures t.LinkOk(i) { assert s.LinkOk(i); }
    forall e ensures t.ContentOk(e) { assert s.ContentOk(e); }
    forall e ensures t.ListingOk(e) { assert s.ListingOk(e) && s.ContentOk(e); }
    forall e ensures t.LiveOk(e) { assert s.LiveOk(e) && s.ContentOk(e); }
  }

  function Exchanged<T>(s: seq<T>, a: nat, b: nat): seq<T>
    requires a < |s| && b < |s|
  {
    s[a := s[b]][b := s[a]]
  }

  /** Rows a and b exchanged, a being linked by its owner's index. */
  ghost function Swapped<V>(s: StoreState<V>, a: nat, b: nat): StoreState<V>
    requires s.Shape() && s.Observes() && a < |s.owners| && b < |s.owners|
  {
    if a == b then s
    else
      var ownerA, ownerB := s.owners[a], s.owners[b];
      var links := s.links[ownerA.index := b];
      s.(owners := Exchanged(s.owners, a, b), values := Exchanged(s.values, a, b),
         shadows := Exchanged(s.shadows, a, b), states := Exchanged(s.states, a, b),
         links := if ownerB.index in s.links && s.links[ownerB.index] == b then links[ownerB.index := a] else links,
         rowOf := s.rowOf[ownerB := a][ownerA := b])
  }

  ghost predicate CanSwap<V>(s: StoreState<V>, a: nat, b: nat) {
    s.Coherent() && s.Observes() && a < |s.owners| && b < |s.owners| && s.IsLinked(s.owners[a])
  }

  lemma SwappedKeepsLinks<V>(s: StoreState<V>, a: nat, b: nat, e: Entity)
    requires CanSwap(s, a, b)
    ensures var t := Swapped(s, a, b);
            && (t.IsLinked(e) <==> s.IsLinked(e))
            && (e in t.rowOf <==> e in s.rowOf)
            && (e in s.rowOf ==>
                  t.rowOf[e] == if s.rowOf[e] == a then b else if s.rowOf[e] == b then a else s.rowOf[e])
  {
    assert s.RowOk(a) && s.RowOk(b) && s.ContentOk(e) && s.LinkOk(e.index);
  }

  lemma SwappedKeepsContent<V>(s: StoreState<V>, a: nat, b: nat, e: Entity)
    requires CanSwap(s, a, b)
    ensures Swapped(s, a, b).Shape() && Swapped(s, a, b).ContentOk(e) && Swapped(s, a, b).ListingOk(e)
  {
    assert s.RowOk(a) && s.RowOk(b) && s.ContentOk(e) && s.ListingOk(e);
    SwappedKeepsLinks(s, a, b, e);
  }

  lemma SwappedKeepsCoherent<V>(s: StoreState<V>, a: nat, b: nat)
    requires CanSwap(s, a, b)
    ensures Swapped(s, a, b).Coherent()
  {
    var t := Swapped(s, a, b);
    assert s.RowOk(a) && s.RowOk(b);
    forall r: nat ensures t.RowOk(r) { assert s.RowOk(r); }
    forall i: nat ensures t.LinkOk(i) { assert s.LinkOk(i); }
    forall e ensures t.ContentOk(e) && t.ListingOk(e) { SwappedKeepsContent(s, a, b, e); }
  }

  /** Exchanging two live rows, or two in the tail, keeps everything. */
  lemma SwappedKeepsValid<V>(s: StoreState<V>, a: nat, b: nat)
    requires s.Valid() && CanSwap(s, a, b)
    requires a < s.live <==> b < s.live
    ensures Swapped(s, a, b).Valid()
  {
    SwappedKeepsCoherent(s, a, b);
    var t := Swapped(s, a, b);
    assert s.RowOk(a) && s.RowOk(b);
    forall e ensures t.LiveOk(e) { assert s.LiveOk(e) && s.ContentOk(e); SwappedKeepsLinks(s, a, b, e); }
  }

  /** The first row in the tail, e's, brought back to life. */
  ghost function Revived<V>(s: StoreState<V>, e: Entity): StoreState<V>
    requires s.Shape() && s.Observes() && s.live < |s.owners| && e in s.held
  {
    s.(states := s.states[s.live := if s.states[s.live] == RowDiscarded then RowAdded else RowChanged],
       live := s.live + 1, current := s.current[e := s.held[e]])
  }

  lemma RevivedKeepsValid<V>(s: StoreState<V>, e: Entity)
    requires s.Valid() && s.Observes() && s.live < |s.owners| && s.owners[s.live] == e && s.IsLinked(e)
    requires e in s.held
    ensures Revived(s, e).Valid()
  {
    var t := Revived(s, e);
    assert s.RowOk(s.live) && s.LiveOk(e) && s.ContentOk(e);
    forall r: nat ensures t.RowOk(r) { assert s.RowOk(r); }
    forall i: nat ensures t.LinkOk(i) { assert s.LinkOk(i); }
    forall o ensures t.ContentOk(o) { assert s.ContentOk(o); }
    forall o ensures t.ListingOk(o) { assert s.ListingOk(o) && s.ContentOk(o); }
    forall o ensures t.LiveOk(o) { assert s.LiveOk(o) && s.ContentOk(o); }
  }

  /** A new row for e at the end of an observed store, before it is moved
      behind the live rows. */
  ghost function Appended<V>(s: StoreState<V>, e: Entity, memory: V, shadowMemory: V,
                             changed: ChangeList): StoreState<V>
    requires s.Shape() && s.Observes()
  {
    var row := |s.owners|;
    s.(owners := s.owners + [e], values := s.values + [memory], shadows := s.shadows + [shadowMemory],
       states := s.states + [RowAdded], links := s.links[e.index := row], changed := changed,
       rowOf := s.rowOf[e := row], held := s.held[e := memory])
  }

  /** Whether changed is the listing once e has a new row: it has stopped if
      e's index linked another owner's row. */
  ghost predicate ListsNewRow<V>(s: StoreState<V>, e: Entity, changed: ChangeList) {
    s.changed.Lists(e, changed) && (e.index in s.links ==> changed.overflowed)
  }

  lemma AppendedKeepsLinks<V>(s: StoreState<V>, e: Entity, memory: V, shadowMemory: V, changed: ChangeList, o: Entity)
    requires s.Coherent() && s.Observes() && e !in s.rowOf && ListsNewRow(s, e, changed)
    ensures var t := Appended(s, e, memory, shadowMemory, changed);
            && t.Shape() && t.ListingOk(o)
            && t.IsLinked(e) && (o.index != e.index ==> (t.IsLinked(o) <==> s.IsLinked(o)))
  {
    assert s.ListingOk(o) && s.ContentOk(o) && s.LinkOk(o.index);
  }

  lemma AppendedKeepsCoherent<V>(s: StoreState<V>, e: Entity, memory: V, shadowMemory: V, changed: ChangeList)
    requires s.Coherent() && s.Observes() && e !in s.rowOf && ListsNewRow(s, e, changed)
    ensures Appended(s, e, memory, shadowMemory, changed).Coherent()
  {
    var t := Appended(s, e, memory, shadowMemory, changed);
    assert s.ContentOk(e);
    forall r: nat ensures t.RowOk(r) { assert s.RowOk(r); }
    forall i: nat ensures t.LinkOk(i) { assert s.LinkOk(i); }
    forall o ensures t.ContentOk(o) { assert s.ContentOk(o); }
    forall o ensures t.ListingOk(o) { AppendedKeepsLinks(s, e, memory, shadowMemory, changed, o); }
  }

  /** A new live row for e, in an observed store. */
  ghost function Inserted<V>(s: StoreState<V>, e: Entity, memory: V, shadowMemory: V,
                             changed: ChangeList): StoreState<V>
    requires s.Shape() && s.Observes()
  {
    Swapped(Appended(s, e, memory, shadowMemory, changed), |s.owners|, s.live)
      .(live := s.live + 1, current := s.current[e := memory])
  }

  /** a is s with e's new row at its end, and t is a with that row moved. */
  lemma InsertedIsLive<V>(s: StoreState<V>, a: StoreState<V>, t: StoreState<V>, e: Entity, o: Entity)
    requires s.Valid() && s.Observes() && e !in s.rowOf && s.CanAdd(e)
    requires CanSwap(a, |s.owners|, s.live) && |a.owners| == |s.owners| + 1 && a.owners[|s.owners|] == e
    requires a.rowOf == s.rowOf[e := |s.owners|] && a.states == s.states + [RowAdded]
             && a.held.Keys == s.held.Keys + {e}
    requires forall h | h in s.held :: a.held[h] == s.held[h]
    requires a.IsLinked(e) && (o.index != e.index ==> (a.IsLinked(o) <==> s.IsLinked(o)))
    requires t == Swapped(a, |s.owners|, s.live).(live := s.live + 1, current := s.current[e := a.held[e]])
    ensures t.Shape() && t.LiveOk(o)
  {
    SwappedKeepsLinks(a, |s.owners|, s.live, o);
    assert s.LiveOk(o) && s.ContentOk(o) && s.ContentOk(e) && a.RowOk(s.live) && s.LinkOk(o.index);
  }

  /** Every other owner keeps its link, but one with e's index, and every live row
      its place. */
  lemma InsertedKeepsOthers<V>(s: StoreState<V>, e: Entity, memory: V, shadowMemory: V, changed: ChangeList)
    requires s.Valid() && s.Observes() && e !in s.rowOf && ListsNewRow(s, e, changed)
    ensures SameLiveRows(s, Inserted(s, e, memory, shadowMemory, changed))
    ensures forall o: Entity | o.index != e.index ::
            Inserted(s, e, memory, shadowMemory, changed).IsLinked(o) <==> s.IsLinked(o)
  {
    var a := Appended(s, e, memory, shadowMemory, changed);
    AppendedKeepsCoherent(s, e, memory, shadowMemory, changed);
    forall o: Entity | o.index != e.index
      ensures Inserted(s, e, memory, shadowMemory, changed).IsLinked(o) <==> s.IsLinked(o)
    {
      AppendedKeepsLinks(s, e, memory, shadowMemory, changed, o);
      SwappedKeepsLinks(a, |s.owners|, s.live, o);
    }
  }

  /** The live rows of s are the first of t. */
  ghost predicate SameLiveRows<V>(s: StoreState<V>, t: StoreState<V>) {
    && s.live <= |s.owners| && s.live <= |s.values| && s.live <= |s.shadows| && s.live <= |s.states|
    && s.live <= |t.owners| && s.live <= |t.values| && s.live <= |t.shadows| && s.live <= |t.states|
    && t.owners[..s.live] == s.owners[..s.live] && t.values[..s.live] == s.values[..s.live]
    && t.shadows[..s.live] == s.shadows[..s.live] && t.states[..s.live] == s.states[..s.live]
  }

  /** A new row at e's index takes a live row's link away, or e would have two
      rows: just what CanAdd shuts out. */
  lemma InsertedKeepsValidIff<V>(s: StoreState<V>, e: Entity, memory: V, shadowMemory: V, changed: ChangeList)
    requires s.Valid() && s.Observes() && e !in s.current && !s.IsLinked(e) && ListsNewRow(s, e, changed)
    ensures Inserted(s, e, memory, shadowMemory, changed).Valid() <==> s.CanAdd(e)
  {
    var t := Inserted(s, e, memory, shadowMemory, changed);
    if s.CanAdd(e) {
      InsertedKeepsValid(s, e, memory, shadowMemory, changed);
    } else if e in s.rowOf {
      TwoRowsOfOne(s, e, memory, shadowMemory, changed);
    } else {
      var row := s.links[e.index];
      assert s.LinkOk(e.index) && s.RowOk(row) && s.LiveOk(s.owners[row]) && s.ContentOk(s.owners[row]);
      assert t.Shape() ==> !t.LiveOk(s.owners[row]);
    }
  }

  /** What a new row makes of the rest, where it may be added. */
  lemma InsertedKeepsAll<V>(s: StoreState<V>, e: Entity, memory: V, shadowMemory: V, changed: ChangeList)
    requires s.Valid() && s.Observes() && e !in s.current && !s.IsLinked(e) && ListsNewRow(s, e, changed)
    ensures var t := Inserted(s, e, memory, shadowMemory, changed);
            && (t.Valid() <==> s.CanAdd(e))
            && |t.states| == |t.owners| > s.live && t.owners[s.live] == e && t.states[s.live] == RowAdded
            && (t.Valid() ==>
                  && SameLiveRows(s, t)
                  && (forall o: Entity | o.index != e.index :: t.IsLinked(o) <==> s.IsLinked(o))
                  && (s.AllLinked() && (forall o | o in s.held :: o.index != e.index) ==> t.AllLinked()))
  {
    InsertedKeepsValidIff(s, e, memory, shadowMemory, changed);
    if s.CanAdd(e) {
      InsertedKeepsOthers(s, e, memory, shadowMemory, changed);
      if s.AllLinked() && forall o | o in s.held :: o.index != e.index {
        InsertedKeepsLinks(s, e, memory, shadowMemory, changed);
      }
    }
  }

  lemma TwoRowsOfOne<V>(s: StoreState<V>, e: Entity, memory: V, shadowMemory: V, changed: ChangeList)
    requires s.Valid() && s.Observes() && e !in s.current && e in s.rowOf
    ensures !Inserted(s, e, memory, shadowMemory, changed).Valid()
  {
    var t := Inserted(s, e, memory, shadowMemory, changed);
    assert s.ContentOk(e) && s.LiveOk(e);
    var other := if s.rowOf[e] == s.live then |s.owners| else s.rowOf[e];
    assert t.owners[s.live] == e == t.owners[other];
    assert !t.RowOk(s.live) || !t.RowOk(other);
  }

  lemma AddedKeepsValidIff<V>(s: StoreState<V>, e: Entity, memory: V)
    requires s.Valid() && !s.Observes() && e !in s.current
    ensures Added(s, e, memory).Valid() <==> s.CanAdd(e)
  {
    var t := Added(s, e, memory);
    assert s.LiveOk(e) && s.ContentOk(e) && s.LinkOk(e.index);
    if s.CanAdd(e) {
      AddedKeepsValid(s, e, memory);
    } else {
      var o := s.owners[s.links[e.index]];
      assert s.RowOk(s.links[e.index]) && s.LiveOk(o) && s.ContentOk(o);
      assert t.Shape() ==> !t.LiveOk(o);
    }
  }

  lemma InsertedKeepsValid<V>(s: StoreState<V>, e: Entity, memory: V, shadowMemory: V, changed: ChangeList)
    requires s.Valid() && s.Observes() && e !in s.rowOf && s.CanAdd(e) && ListsNewRow(s, e, changed)
    ensures Inserted(s, e, memory, shadowMemory, changed).Valid()
  {
    var a := Appended(s, e, memory, shadowMemory, changed);
    var t := Inserted(s, e, memory, shadowMemory, changed);
    AppendedKeepsCoherent(s, e, memory, shadowMemory, changed);
    AppendedKeepsLinks(s, e, memory, shadowMemory, changed, e);
    SwappedKeepsCoherent(a, |s.owners|, s.live);
    MovedLineKeepsCoherent(Swapped(a, |s.owners|, s.live), t);
    assert s.ContentOk(e);
    forall o ensures t.LiveOk(o) {
      AppendedKeepsLinks(s, e, memory, shadowMemory, changed, o);
      InsertedIsLive(s, a, t, e, o);
    }
  }

  /** Coherence says nothing of where the live rows end. */
  lemma MovedLineKeepsCoherent<V>(s: StoreState<V>, t: StoreState<V>)
    requires s.Coherent() && s.Observes() && t.live <= |s.owners|
    requires t == s.(live := t.live, current := t.current)
    ensures t.Coherent()
  {
    forall r: nat ensures t.RowOk(r) { assert s.RowOk(r); }
    forall i: nat ensures t.LinkOk(i) { assert s.LinkOk(i); }
    forall o ensures t.ContentOk(o) { assert s.ContentOk(o); }
    forall o ensures t.ListingOk(o) { assert s.ListingOk(o); }
  }

  /** A new row for e, in a store that does not observe. */
  ghost function Added<V>(s: StoreState<V>, e: Entity, memory: V): StoreState<V> {
    s.(owners := s.owners + [e], values := s.values + [memory], links := s.links[e.index := |s.owners|],
       rowOf := s.rowOf[e := |s.owners|], held := s.held[e := memory],
       live := s.live + 1, current := s.current[e := memory])
  }

  lemma AddedKeepsValid<V>(s: StoreState<V>, e: Entity, memory: V)
    requires s.Valid() && !s.Observes() && s.CanAdd(e)
    ensures Added(s, e, memory).Valid()
  {
    var t := Added(s, e, memory);
    assert s.LinkOk(e.index) && s.LiveOk(e) && s.ContentOk(e);
    forall r: nat ensures t.RowOk(r) { assert s.RowOk(r); }
    forall i: nat ensures t.LinkOk(i) { assert s.LinkOk(i); }
    forall o ensures t.ContentOk(o) { assert s.ContentOk(o); }
    forall o ensures t.ListingOk(o) { assert s.ListingOk(o); }
    forall o ensures t.LiveOk(o) { assert s.LiveOk(o) && s.ContentOk(o); }
  }

  /** The first p rows are what they were. */
  ghost predicate SameBefore<V>(s: StoreState<V>, t: StoreState<V>, p: nat) {
    p <= |s.owners| && p <= t.live <= |t.owners| && t.owners[..p] == s.owners[..p]
  }

  /** The rows before e's, all of them if it has none, stay where they were. */
  ghost predicate RowsBeforeStay<V>(s: StoreState<V>, t: StoreState<V>, e: Entity) {
    s.live <= |s.owners|
        && forall p: nat {:trigger SameBefore(s, t, p)} | p <= s.live && e !in s.owners[..p] :: SameBefore(s, t, p)
  }

  /** What happens to the state of a row that is removed. */
  function StateOnRemoval(state: RowState): RowState {
    if state == RowAdded then RowDiscarded else RowRemoved
  }

  /** The last live row, e's, moved to the tail. */
  ghost function Buried<V>(s: StoreState<V>, e: Entity, changed: ChangeList): StoreState<V>
    requires s.Shape() && s.Observes() && s.live > 0
  {
    var last := s.live - 1;
    s.(live := last, current := s.current - {e}, states := s.states[last := StateOnRemoval(s.states[last])],
       changed := changed)
  }

  /** The state of a row that is marked changed. */
  function StateOnWrite(state: RowState): RowState {
    if state == RowUnchanged then RowChanged else state
  }

  /** What an observed store still holds has rows in the states they had, but for
      e's, if it is marked changed. */
  ghost predicate MarksAt<V>(s: StoreState<V>, t: StoreState<V>, e: Entity, marked: bool) {
    s.Observes() ==>
      forall o {:trigger t.StateAt(o)} | o in t.current ::
        o in s.current && t.StateAt(o) == if marked && o == e then StateOnWrite(s.StateAt(o)) else s.StateAt(o)
  }

  ghost predicate SameStates<V>(s: StoreState<V>, t: StoreState<V>) {
    s.Observes() ==> forall o {:trigger t.StateAt(o)} | o in t.current :: o in s.current && t.StateAt(o) == s.StateAt(o)
  }

  /** A write in place marks e's live row, if it has one, and no other. */
  lemma WriteMarks<V>(s: StoreState<V>, t: StoreState<V>, e: Entity)
    requires s.Valid() && t == s.(states := t.states, changed := t.changed)
    requires var row := s.Row(e);
             t.states == if row.Some? && s.Observes() && s.states[row.value] == RowUnchanged
                         then s.states[row.value := RowChanged] else s.states
    ensures MarksAt(s, t, e, true)
  {
    if s.Observes() {
      assert s.LiveOk(e) && s.ContentOk(e);
      forall o | o in t.current
        ensures t.StateAt(o) == if o == e then StateOnWrite(s.StateAt(o)) else s.StateAt(o)
      {
        assert s.LiveOk(o) && s.ContentOk(o);
        if s.Row(e).Some? {
          assert s.RowOk(s.Row(e).value);
        }
      }
    }
  }

  /** e's live row, moved to the tail, leaves the others their states. */
  lemma BuriedKeepsStates<V>(s: StoreState<V>, row: nat, e: Entity, changed: ChangeList)
    requires s.Valid() && s.Observes() && row < s.live && s.owners[row] == e
    ensures SameStates(s, Buried(Swapped(s, row, s.live - 1), e, changed))
  {
    var last := s.live - 1;
    var t := Buried(Swapped(s, row, last), e, changed);
    assert s.RowOk(row) && s.LiveOk(e) && s.ContentOk(e);
    forall o | o in t.current ensures o in s.current && t.StateAt(o) == s.StateAt(o) {
      assert s.LiveOk(o) && s.ContentOk(o) && s.RowOk(last);
      SwappedKeepsLinks(s, row, last, o);
    }
  }

  lemma BuriedKeepsValid<V>(s: StoreState<V>, e: Entity, changed: ChangeList)
    requires s.Valid() && s.Observes() && s.live > 0 && s.owners[s.live - 1] == e
    requires if s.states[s.live - 1] == RowUnchanged then s.changed.Lists(e, changed) else changed == s.changed
    ensures Buried(s, e, changed).Valid()
  {
    var t := Buried(s, e, changed);
    assert s.RowOk(s.live - 1) && s.LiveOk(e);
    forall r: nat ensures t.RowOk(r) { assert s.RowOk(r); }
    forall i: nat ensures t.LinkOk(i) { assert s.LinkOk(i); }
    forall o ensures t.ContentOk(o) { assert s.ContentOk(o); }
    forall o ensures t.ListingOk(o) { assert s.ListingOk(o) && s.ContentOk(o); }
    forall o ensures t.LiveOk(o) { assert s.LiveOk(o) && s.ContentOk(o); }
  }

  /** e's row dropped from a store that does not observe. */
  ghost function Dropped<V>(s: StoreState<V>, e: Entity, row: nat): StoreState<V>
    requires s.Shape() && !s.Observes() && row < s.live
  {
    var last := s.live - 1;
    var moved := s.owners[last];
    s.(live := last, owners := s.owners[row := moved][..last], values := s.values[row := s.values[last]][..last],
       links := (if row != last then s.links[moved.index := row] else s.links) - {e.index},
       rowOf := (if row != last then s.rowOf[moved := row] else s.rowOf) - {e},
       held := s.held - {e}, current := s.current - {e})
  }

  lemma DroppedKeepsValid<V>(s: StoreState<V>, e: Entity, row: nat)
    requires s.Valid() && !s.Observes() && row < s.live && s.owners[row] == e
    ensures Dropped(s, e, row).Valid()
  {
    var t := Dropped(s, e, row);
    var moved := s.owners[s.live - 1];
    assert s.RowOk(row) && s.RowOk(s.live - 1) && s.LiveOk(e) && s.LiveOk(moved);
    forall r: nat ensures t.RowOk(r) { assert s.RowOk(r); }
    forall i: nat ensures t.LinkOk(i) { assert s.LinkOk(i); }
    forall o ensures t.ContentOk(o) { assert s.ContentOk(o); }
    forall o ensures t.ListingOk(o) { assert s.ListingOk(o); }
    forall o ensures t.LiveOk(o) { assert s.LiveOk(o) && s.ContentOk(o); }
  }

  /** Every row counting as added, once the store starts observing. */
  ghost function Started<V>(s: StoreState<V>, shadowMemory: V): StoreState<V> {
    s.(observation := Observed, changed := s.changed.(overflowed := true),
       shadows := seq(|s.owners|, _ => shadowMemory), states := seq(|s.owners|, _ => RowAdded))
  }

  lemma StartedKeepsValid<V>(s: StoreState<V>, shadowMemory: V)
    requires s.Valid() && !s.Observes()
    ensures Started(s, shadowMemory).Valid()
  {
    var t := Started(s, shadowMemory);
    forall r: nat ensures t.RowOk(r) { assert s.RowOk(r); }
    forall i: nat ensures t.LinkOk(i) { assert s.LinkOk(i); }
    forall e ensures t.ContentOk(e) { assert s.ContentOk(e); }
    forall e ensures t.LiveOk(e) { assert s.LiveOk(e) && s.ContentOk(e); }
  }

  /** The tail dropped, and every shadow at its row's value. */
  ghost function Settled<V>(s: StoreState<V>): StoreState<V>
    requires s.Shape()
  {
    s.(owners := s.owners[..s.live], values := s.values[..s.live], shadows := s.values[..s.live],
       states := seq(s.live, _ => RowUnchanged),
       links := map i | i in s.links && s.links[i] < s.live :: s.links[i],
       changed := ChangeList([], map[], false),
       rowOf := map e | e in s.rowOf && s.rowOf[e] < s.live :: s.rowOf[e],
       held := s.current, baseline := s.current)
  }

  lemma SettledKeepsValid<V>(s: StoreState<V>)
    requires s.Valid() && s.Observes()
    ensures Settled(s).Valid() && Settled(s).AllLinked()
  {
    var t := Settled(s);
    forall r: nat ensures t.RowOk(r) { assert s.RowOk(r); }
    forall i: nat ensures t.LinkOk(i) { assert s.LinkOk(i); }
    forall e ensures t.ContentOk(e) && t.ListingOk(e) && t.LiveOk(e) { assert s.LiveOk(e) && s.ContentOk(e); }
    forall e | e in t.rowOf ensures t.IsLinked(e) { assert t.LiveOk(e); }
  }

  /** A row that the listing does not name holds what its shadow does. */
  lemma UnlistedIsUnchanged<V>(s: StoreState<V>, row: nat)
    requires s.Valid() && s.Observes() && !s.changed.overflowed && row < |s.owners|
    requires s.owners[row] !in s.changed.entities
    ensures s.states[row] == RowUnchanged && s.values[row] == s.shadows[row]
  {
    var e := s.owners[row];
    assert s.RowOk(row) && s.ListingOk(e) && s.ContentOk(e) && s.changed.Has(e);
  }

  lemma WaitingKeepsValid<V>(s: StoreState<V>)
    requires s.Valid() && s.observation == Unobserved
    ensures s.(observation := ObserverWaiting).Valid()
    ensures s.AllLinked() ==> s.(observation := ObserverWaiting).AllLinked()
  {
    var t := s.(observation := ObserverWaiting);
    forall r: nat ensures t.RowOk(r) { assert s.RowOk(r); }
    forall i: nat ensures t.LinkOk(i) { assert s.LinkOk(i); }
    forall e ensures t.ContentOk(e) && t.LiveOk(e) { assert s.ContentOk(e) && s.LiveOk(e); }
    SameLinks(s, t);
  }

  lemma SameLinks<V>(s: StoreState<V>, t: StoreState<V>)
    requires t.rowOf == s.rowOf && t.links == s.links
    ensures s.AllLinked() ==> t.AllLinked()
  {
    if s.AllLinked() {
      forall e | e in t.rowOf ensures t.IsLinked(e) { assert s.IsLinked(e); }
    }
  }

  lemma SwappedSameLinks<V>(s: StoreState<V>, a: nat, b: nat)
    requires CanSwap(s, a, b)
    ensures var t := Swapped(s, a, b);
            && (forall e :: t.IsLinked(e) <==> s.IsLinked(e))
            && (s.AllLinked() ==> t.AllLinked())
  {
    var t := Swapped(s, a, b);
    forall e ensures (t.IsLinked(e) <==> s.IsLinked(e)) && (e in t.rowOf <==> e in s.rowOf) {
      SwappedKeepsLinks(s, a, b, e);
    }
  }

  lemma InsertedKeepsLinks<V>(s: StoreState<V>, e: Entity, memory: V, shadowMemory: V, changed: ChangeList)
    requires s.Valid() && s.Observes() && e !in s.rowOf && s.CanAdd(e) && ListsNewRow(s, e, changed)
    requires Inserted(s, e, memory, shadowMemory, changed).Valid()
    requires s.AllLinked() && forall o | o in s.held :: o.index != e.index
    ensures Inserted(s, e, memory, shadowMemory, changed).AllLinked()
  {
    var a := Appended(s, e, memory, shadowMemory, changed);
    var t := Inserted(s, e, memory, shadowMemory, changed);
    AppendedKeepsCoherent(s, e, memory, shadowMemory, changed);
    forall o | o in t.rowOf ensures t.IsLinked(o) {
      AppendedKeepsLinks(s, e, memory, shadowMemory, changed, o);
      SwappedKeepsLinks(a, |s.owners|, s.live, o);
      assert s.ContentOk(o);
    }
  }

  /** Every row of a store that does not observe is live, so linked. */
  lemma UnobservedAllLinked<V>(s: StoreState<V>)
    requires s.Valid() && !s.Observes()
    ensures s.AllLinked()
  {
    forall e | e in s.rowOf ensures s.IsLinked(e) {
      assert s.ContentOk(e) && s.LiveOk(e);
    }
  }
}
