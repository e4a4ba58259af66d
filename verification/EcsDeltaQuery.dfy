/** Delta queries: a walk of what changed in an observation window, over any
    number of terms (ecs/delta.go, ecs/deltaquery_gen.go). */
module EcsDeltaQuery {
  import opened Basics
  import opened EcsEntity
  import opened EcsStoreState
  import opened EcsTerms

  /** What a term holds of an entity: its value, its value as of the reset and
      its delta. */
  datatype TermValue<V> = TermValue(address: Option<V>, previous: Option<V>, delta: Delta)

  /** What a delta query yields of one entity: per term its value, now or as
      last held, its value as of the reset, and its delta. A filter has none. */
  datatype DeltaRow<V> = DeltaRow(entity: Entity, terms: seq<TermValue<V>>)

  /** Whether terms can make a delta query: values and filters, a value among
      them. The source panics otherwise. */
  predicate CanDeclare(modes: seq<TermMode>) {
    && (forall i | 0 <= i < |modes| :: modes[i] in {TermRead, TermWith, TermWithout})
    && TermRead in modes
  }

  ghost predicate Observed<V>(views: seq<TermView<V>>) {
    forall i | 0 <= i < |views| && views[i].mode == TermRead :: views[i].rows.Observes()
  }

  ghost predicate Valid<V>(views: seq<TermView<V>>) {
    forall i | 0 <= i < |views| ::
      && views[i].mode in {TermRead, TermWith, TermWithout}
      && views[i].rows.Valid() && views[i].rows.AllLinked()
  }

  ghost function DeltaOf<V>(view: TermView<V>, e: Entity): Delta {
    DiffOf(view.rows.baseline, view.rows.current, e)
  }

  /** Whether one term lets e through: e has or had the value this window, or
      has or lacks the filter's component now. */
  ghost predicate Accepts<V>(view: TermView<V>, e: Entity) {
    match view.mode
    case TermWith => e in view.rows.current
    case TermWithout => e !in view.rows.current
    case _ => e in view.rows.current || e in view.rows.baseline
  }

  ghost predicate HasDelta<V>(view: TermView<V>, e: Entity) {
    view.mode == TermRead && DeltaOf(view, e) != DeltaNone
  }

  /** The entities a delta query is for: every term accepts them, and a value
      term has a delta. */
  ghost predicate Matches<V>(views: seq<TermView<V>>, e: Entity) {
    && (forall i | 0 <= i < |views| :: Accepts(views[i], e))
    && (exists i | 0 <= i < |views| :: HasDelta(views[i], e))
  }

  /** Whether term is the one to yield e: the first with a delta. */
  ghost predicate YieldedBy<V>(views: seq<TermView<V>>, term: nat, e: Entity)
    requires term < |views|
  {
    && (forall i | 0 <= i < |views| :: Accepts(views[i], e))
    && HasDelta(views[term], e)
    && (forall i | 0 <= i < term :: !HasDelta(views[i], e))
  }

  lemma MatchIsYieldedOnce<V>(views: seq<TermView<V>>, e: Entity) returns (term: nat)
    requires Matches(views, e)
    ensures term < |views| && YieldedBy(views, term, e)
    ensures forall other: nat | other < |views| && YieldedBy(views, other, e) :: other == term
  {
    term := 0;
    while !HasDelta(views[term], e)
      invariant term < |views| && exists i | 0 <= i < |views| :: HasDelta(views[i], e)
      invariant forall i | 0 <= i < term :: !HasDelta(views[i], e)
      decreases |views| - term
    {
      term := term + 1;
    }
  }

  ghost predicate RowCorrect<V>(views: seq<TermView<V>>, row: DeltaRow<V>) {
    |row.terms| == |views| && forall i | 0 <= i < |views| :: Holds(row.terms[i], views[i], row.entity)
  }

  /** A row of a value term that has a delta, or is live, or was removed: what
      is read off it. */
  lemma RowReads<V>(s: StoreState<V>, row: nat)
    requires s.Valid() && s.Observes() && row < |s.owners|
    ensures var e := s.owners[row];
            && e in s.held && s.held[e] == s.values[row]
            && (e in s.baseline ==> s.baseline[e] == s.shadows[row])
            && (DiffOf(s.baseline, s.current, e) != DeltaNone ==>
                  s.states[row] != RowUnchanged && (e in s.current || e in s.baseline))
            && (e in s.current ==> (e in s.baseline <==> DiffOf(s.baseline, s.current, e) != DeltaAdded))
  {
    assert s.RowOk(row) && s.ContentOk(s.owners[row]) && s.LiveOk(s.owners[row]);
  }

  /** Whether every value term's store observes. */
  method AllObserved<V(==)>(views: seq<TermView<V>>) returns (observed: bool)
    ensures observed <==> Observed(views)
  {
    for i := 0 to |views|
      invariant forall k | 0 <= k < i && views[k].mode == TermRead :: views[k].rows.Observes()
    {
      if views[i].mode == TermRead && !views[i].rows.Observes() {
        return false;
      }
    }
    return true;
  }

  /** Whether e has or lacks a filter's component, as the filter asks. */
  method FilterAccepts<V(==)>(view: TermView<V>, e: Entity) returns (accepted: bool)
    requires view.mode in {TermWith, TermWithout} && view.rows.Valid()
    ensures accepted <==> Accepts(view, e)
  {
    return view.rows.Row(e).Some? != (view.mode == TermWithout);
  }

  ghost predicate Holds<V>(value: TermValue<V>, view: TermView<V>, e: Entity) {
    if view.mode != TermRead then value == TermValue(None, None, DeltaNone)
    else
      && e in view.rows.held && value.address == Some(view.rows.held[e])
      && value.previous == (if e in view.rows.baseline then Some(view.rows.baseline[e]) else None)
      && value.delta == DeltaOf(view, e)
  }

  /** What a value term holds of e: at its row if the term drives, else probed
      by entity. */
  method ProbeValue<V(==)>(view: TermView<V>, e: Entity, driving: Option<nat>) returns (found: Option<TermValue<V>>)
    requires view.mode == TermRead && view.rows.Valid() && view.rows.AllLinked() && view.rows.Observes()
    requires driving.Some? ==> driving.value < |view.rows.owners| && view.rows.owners[driving.value] == e
    requires driving.Some? ==> DeltaOf(view, e) != DeltaNone
    ensures found.Some? <==> Accepts(view, e)
    ensures found.Some? ==> Holds(found.value, view, e)
  {
    var s := view.rows;
    assert s.ContentOk(e) && s.LiveOk(e);
    var row := driving;
    if driving.None? {
      row := s.ReportedRow(e);
      if row.None? {
        return None;
      }
    }
    RowReads(s, row.value);
    var delta := s.DeltaAt(row.value);
    return Some(TermValue(Some(s.values[row.value]),
                          if delta == DeltaAdded then None else Some(s.shadows[row.value]), delta));
  }

  /** What one term holds of e, if it lets e through. */
  method ProbeTerm<V(==)>(view: TermView<V>, e: Entity, driving: Option<nat>) returns (found: Option<TermValue<V>>)
    requires Valid([view]) && Observed([view])
    requires driving.Some? ==> view.mode == TermRead && DeltaOf(view, e) != DeltaNone
    requires driving.Some? ==> driving.value < |view.rows.owners| && view.rows.owners[driving.value] == e
    ensures found.Some? <==> Accepts(view, e)
    ensures found.Some? ==> Holds(found.value, view, e)
  {
    assert [view][0] == view;
    if view.mode == TermRead {
      found := ProbeValue(view, e, driving);
    } else {
      var accepted := FilterAccepts(view, e);
      found := if accepted then Some(TermValue(None, None, DeltaNone)) else None;
    }
  }

  /** Whether the owner of drivingRow, in the driving term's store, is yielded
      there, and the row it is yielded with. */
  method MatchRow<V(==)>(views: seq<TermView<V>>, drivingTerm: nat, drivingRow: nat) returns (row: Option<DeltaRow<V>>)
    requires Valid(views) && Observed(views)
    requires drivingTerm < |views| && views[drivingTerm].mode == TermRead
    requires drivingRow < |views[drivingTerm].rows.owners|
    ensures var e := views[drivingTerm].rows.owners[drivingRow];
            && (row.Some? <==> YieldedBy(views, drivingTerm, e))
            && (row.Some? ==> row.value.entity == e && RowCorrect(views, row.value))
  {
    var e := views[drivingTerm].rows.owners[drivingRow];
    if views[drivingTerm].rows.DeltaAt(drivingRow) == DeltaNone {
      return None;
    }
    var values: seq<TermValue<V>> := [];
    for i := 0 to |views|
      invariant |values| == i
      invariant forall k | 0 <= k < i :: Accepts(views[k], e)
      invariant forall k | 0 <= k < i && k < drivingTerm :: !HasDelta(views[k], e)
      invariant forall k | 0 <= k < i :: Holds(values[k], views[k], e)
    {
      assert [views[i]][0] == views[i];
      var found := ProbeTerm(views[i], e, if i == drivingTerm then Some(drivingRow) else None);
      if found.None? || (i < drivingTerm && found.value.delta != DeltaNone) {
        assert !Accepts(views[i], e) || HasDelta(views[i], e);
        return None;
      }
      values := values + [found.value];
    }
    return Some(DeltaRow(e, values));
  }

  /** The entities yielded so far. */
  ghost predicate Yielded<V>(rows: seq<DeltaRow<V>>, e: Entity) {
    exists k | 0 <= k < |rows| :: rows[k].entity == e
  }

  /** Every row yielded is right, and no entity is yielded twice. */
  ghost predicate Sound<V>(views: seq<TermView<V>>, rows: seq<DeltaRow<V>>) {
    && (forall k | 0 <= k < |rows| :: RowCorrect(views, rows[k]))
    && (forall j, k | 0 <= j < k < |rows| :: rows[j].entity != rows[k].entity)
  }

  lemma YieldOneMore<V>(views: seq<TermView<V>>, rows: seq<DeltaRow<V>>, row: DeltaRow<V>)
    requires Sound(views, rows) && RowCorrect(views, row) && !Yielded(rows, row.entity)
    ensures Sound(views, rows + [row])
    ensures forall e :: Yielded(rows + [row], e) <==> Yielded(rows, e) || e == row.entity
  {
    var after := rows + [row];
    forall e ensures Yielded(after, e) <==> Yielded(rows, e) || e == row.entity {
      if Yielded(rows, e) {
        var k :| 0 <= k < |rows| && rows[k].entity == e;
        assert after[k].entity == e;
      }
      assert after[|rows|] == row;
    }
  }

  /** The owner of the i-th row a store's walk visits. */
  ghost function WalkedOwner<V>(s: StoreState<V>, i: nat): Entity
    requires i < s.WalkedRows()
  {
    if s.changed.overflowed then s.owners[i] else s.changed.entities[i]
  }

  /** A walk meets no owner twice. */
  lemma WalkMeetsOnce<V>(s: StoreState<V>, i: nat, j: nat)
    requires s.Valid() && s.Observes() && i < j < s.WalkedRows()
    ensures WalkedOwner(s, i) != WalkedOwner(s, j)
  {
    if s.changed.overflowed {
      assert s.RowOk(i) && s.RowOk(j);
    } else {
      assert s.changed.PlaceOk(i) && s.changed.PlaceOk(j);
    }
  }

  /** A walk meets every entity with a delta, whether it goes through the
      listing or through every row. */
  lemma WalkMeetsEveryDelta<V>(s: StoreState<V>, e: Entity) returns (i: nat)
    requires s.Valid() && s.Observes() && DiffOf(s.baseline, s.current, e) != DeltaNone
    ensures i < s.WalkedRows() && WalkedOwner(s, i) == e
  {
    assert s.ContentOk(e) && s.LiveOk(e) && s.ListingOk(e);
    var row := s.rowOf[e];
    RowReads(s, row);
    if s.changed.overflowed {
      i := row;
    } else {
      assert s.changed.Has(e);
      i := s.changed.at[e];
    }
  }

  ghost predicate YieldedEarlier<V>(views: seq<TermView<V>>, terms: nat, e: Entity)
    requires terms <= |views|
  {
    exists i: nat | i < terms :: YieldedBy(views, i, e)
  }

  /** Whether the first n rows of s's walk met e. */
  ghost predicate Met<V>(s: StoreState<V>, n: nat, e: Entity)
    requires n <= s.WalkedRows()
  {
    exists i: nat | i < n :: WalkedOwner(s, i) == e
  }

  lemma MetOneMore<V>(s: StoreState<V>, n: nat)
    requires s.Valid() && s.Observes() && n < s.WalkedRows()
    ensures !Met(s, n, WalkedOwner(s, n))
    ensures forall e :: Met(s, n + 1, e) <==> Met(s, n, e) || e == WalkedOwner(s, n)
  {
    forall i: nat | i < n ensures WalkedOwner(s, i) != WalkedOwner(s, n) {
      WalkMeetsOnce(s, i, n);
    }
    forall e ensures Met(s, n + 1, e) <==> Met(s, n, e) || e == WalkedOwner(s, n) {
      if Met(s, n, e) {
        var i: nat :| i < n && WalkedOwner(s, i) == e;
        assert i < n + 1;
      }
    }
  }

  /** The rows yielded once the terms before term, and n rows of its own walk,
      have driven. */
  ghost predicate Progress<V>(views: seq<TermView<V>>, term: nat, n: nat, rows: seq<DeltaRow<V>>)
    requires term < |views| && n <= views[term].rows.WalkedRows()
  {
    forall e {:trigger Yielded(rows, e)} ::
      Yielded(rows, e) <==> YieldedEarlier(views, term, e) || (YieldedBy(views, term, e) && Met(views[term].rows, n, e))
  }

  /** Drives by one value term, adding the rows it is the one to yield. */
  method DriveBy<V(==)>(views: seq<TermView<V>>, drivingTerm: nat, before: seq<DeltaRow<V>>)
    returns (rows: seq<DeltaRow<V>>)
    requires Valid(views) && Observed(views)
    requires drivingTerm < |views| && views[drivingTerm].mode == TermRead
    requires Sound(views, before) && Progress(views, drivingTerm, 0, before)
    ensures Sound(views, rows) && Progress(views, drivingTerm, views[drivingTerm].rows.WalkedRows(), rows)
  {
    var store := views[drivingTerm].rows;
    rows := before;
    for i := 0 to store.WalkedRows()
      invariant Sound(views, rows) && Progress(views, drivingTerm, i, rows)
    {
      MetOneMore(store, i);
      var row := i;
      if !store.changed.overflowed {
        row := store.ListedRow(i);
      } else if store.states[row] == RowUnchanged {
        RowReads(store, row);
        continue;
      }
      var yielded := MatchRow(views, drivingTerm, row);
      if yielded.Some? {
        assert !Yielded(rows, yielded.value.entity);
        YieldOneMore(views, rows, yielded.value);
        rows := rows + [yielded.value];
      }
    }
  }

  lemma ProgressPastTerm<V>(views: seq<TermView<V>>, term: nat, rows: seq<DeltaRow<V>>)
    requires Valid(views) && Observed(views) && term < |views|
    requires if views[term].mode == TermRead then Progress(views, term, views[term].rows.WalkedRows(), rows)
             else forall e :: Yielded(rows, e) <==> YieldedEarlier(views, term, e)
    ensures forall e :: Yielded(rows, e) <==> YieldedEarlier(views, term + 1, e)
  {
    forall e ensures Yielded(rows, e) <==> YieldedEarlier(views, term + 1, e) {
      assert YieldedEarlier(views, term + 1, e) <==> YieldedEarlier(views, term, e) || YieldedBy(views, term, e);
      if views[term].mode == TermRead && YieldedBy(views, term, e) {
        var i := WalkMeetsEveryDelta(views[term].rows, e);
      }
    }
  }

  /** Walks the entities with a delta. Each value term drives in turn, through
      its listing, or through every row of its store once that stopped. */
  method All<V(==)>(views: seq<TermView<V>>) returns (rows: seq<DeltaRow<V>>)
    requires Valid(views)
    ensures !Observed(views) ==> rows == []
    ensures Observed(views) ==> Sound(views, rows) && forall e :: Yielded(rows, e) <==> Matches(views, e)
  {
    rows := [];
    var observed := AllObserved(views);
    if !observed {
      return;
    }
    for drivingTerm := 0 to |views|
      invariant Sound(views, rows)
      invariant forall e :: Yielded(rows, e) <==> YieldedEarlier(views, drivingTerm, e)
    {
      if views[drivingTerm].mode == TermRead {
        rows := DriveBy(views, drivingTerm, rows);
      }
      ProgressPastTerm(views, drivingTerm, rows);
    }
    forall e ensures Yielded(rows, e) <==> Matches(views, e) {
      if Matches(views, e) {
        var term := MatchIsYieldedOnce(views, e);
      }
    }
  }

  /** All, over the stores themselves. */
  method Query<V(==)>(terms: seq<Term<V>>) returns (rows: seq<DeltaRow<V>>)
    requires Valid(Views(terms))
    ensures !Observed(Views(terms)) ==> rows == []
    ensures Observed(Views(terms)) ==>
              Sound(Views(terms), rows) && forall e :: Yielded(rows, e) <==> Matches(Views(terms), e)
  {
    var views: seq<TermView<V>> := [];
    for i := 0 to |terms|
      invariant views == Views(terms)[..i]
    {
      views := views + [TermView(terms[i].mode, terms[i].store.rows)];
    }
    assert views == Views(terms);
    rows := All(views);
  }
}
