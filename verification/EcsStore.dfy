/** One component's store: a sparse set that, once observed, also keeps what
    every row held at the last observation reset (ecs/store.go). Chunks of
    bytes are flat sequences of V, and a bytewise comparison is equality of V. */
module EcsStore {
  import opened Basics
  import opened EcsEntity
  import opened EcsStoreState

  /** The listing of changed entities stops past an eighth of the live rows. */
  const LISTING_DIVISOR: nat := 8

  class Store<V(==)> {
    /** Every field of the store, in one record. */
    var rows: StoreState<V>

    ghost predicate Valid()
      reads this
    {
      rows.Valid()
    }

    /** No two owners of rows share an index, so every row is linked. */
    ghost predicate AllLinked()
      reads this
    {
      rows.AllLinked()
    }

    /** What every entity holds now. */
    ghost function Current(): map<Entity, V>
      reads this
    {
      rows.current
    }

    /** What every entity held at the last observation reset. */
    ghost function Baseline(): map<Entity, V>
      reads this
    {
      rows.baseline
    }

    /** What every owner of a row, live or in the tail, last held. */
    ghost function Held(): map<Entity, V>
      reads this
    {
      rows.held
    }

    constructor ()
      ensures Valid() && AllLinked() && rows.observation == Unobserved
      ensures Current() == map[] && Baseline() == map[] && Held() == map[]
    {
      rows := StoreState([], [], [], [], map[], 0, Unobserved, ChangeList([], map[], false),
                         map[], map[], map[], map[]);
    }

    /** e's live row. */
    function Row(e: Entity): (row: Option<nat>)
      requires Valid()
      reads this
      ensures row.Some? <==> e in Current()
      ensures row.Some? ==> row.value < rows.live && row.value < |rows.owners| && rows.owners[row.value] == e
    {
      rows.Row(e)
    }

    /** e's value now. */
    function Get(e: Entity): (value: Option<V>)
      requires Valid()
      reads this
      ensures value == if e in Current() then Some(Current()[e]) else None
    {
      var row := rows.Row(e);
      if row.Some? then
        assert rows.RowOk(row.value) && rows.LiveOk(e) && rows.ContentOk(e);
        Some(rows.values[row.value])
      else None
    }

    method RegisterObserver()
      requires Valid()
      modifies this
      ensures Valid() && (old(AllLinked()) ==> AllLinked())
      ensures Current() == old(Current()) && Baseline() == old(Baseline()) && Held() == old(Held())
      ensures rows.observation == if old(rows.observation) == Unobserved then ObserverWaiting else old(rows.observation)
    {
      if rows.observation == Unobserved {
        WaitingKeepsValid(rows);
        rows := rows.(observation := ObserverWaiting);
      }
    }

    /** Lists e, whose row has just left RowUnchanged, or stops the listing. */
    method ListChanged(e: Entity)
      requires rows.changed.Valid() && (!rows.changed.overflowed ==> e !in rows.changed.at)
      modifies this
      ensures rows == old(rows).(changed := rows.changed)
      ensures old(rows).changed.Lists(e, rows.changed)
      ensures if |old(rows).changed.entities| < rows.live / LISTING_DIVISOR
              then rows.changed.entities == old(rows).changed.entities + [e]
                     && rows.changed.overflowed == old(rows).changed.overflowed
              else rows.changed.entities == old(rows).changed.entities && rows.changed.overflowed
      ensures |rows.changed.entities| <= |old(rows).changed.entities| ||
              |rows.changed.entities| <= rows.live / LISTING_DIVISOR
    {
      var changed := rows.changed;
      if |changed.entities| < rows.live / LISTING_DIVISOR {
        AppendLists(changed, e);
        changed := changed.(entities := changed.entities + [e], at := changed.at[e := |changed.entities|]);
      } else {
        changed := changed.(overflowed := true);
      }
      rows := rows.(changed := changed);
    }

    /** Marks e's live row changed, unless it left RowUnchanged already. */
    method MarkChanged(row: nat, e: Entity)
      requires Valid() && row < rows.live && rows.owners[row] == e
      modifies this
      ensures rows == old(rows).(states := rows.states, changed := rows.changed)
      ensures Valid() && (old(AllLinked()) ==> AllLinked())
      ensures rows.states == if rows.Observes() && old(rows.states)[row] == RowUnchanged
                             then old(rows.states)[row := RowChanged] else old(rows.states)
    {
      if rows.Observes() && rows.states[row] == RowUnchanged {
        ghost var s := rows;
        assert s.RowOk(row) && s.ListingOk(e) && s.ContentOk(e);
        rows := rows.(states := rows.states[row := RowChanged]);
        ListChanged(e);
        MarkedKeepsValid(s, row, rows.changed);
        SameLinks(s, rows);
      }
    }

    /** Finds e's live row for writing in place. */
    method Write(e: Entity) returns (row: Option<nat>)
      requires Valid()
      modifies this
      ensures rows == old(rows).(states := rows.states, changed := rows.changed)
      ensures Valid() && (old(AllLinked()) ==> AllLinked())
      ensures row == old(Row(e)) && (row.None? ==> rows == old(rows))
      ensures rows.states == if row.Some? && rows.Observes() && old(rows.states)[row.value] == RowUnchanged
                             then old(rows.states)[row.value := RowChanged] else old(rows.states)
    {
      row := Row(e);
      if row.Some? {
        MarkChanged(row.value, e);
      }
    }

    /** A write through the address of a row that Write or Add answered. */
    method SetValue(row: nat, value: V)
      requires Valid() && row < rows.live
      requires rows.Observes() ==> rows.states[row] != RowUnchanged
      modifies this
      ensures Valid() && (old(AllLinked()) ==> AllLinked())
      ensures rows.observation == old(rows.observation) && Baseline() == old(Baseline())
      ensures rows.owners == old(rows.owners) && rows.live == old(rows.live) <= |rows.owners|
      ensures Current() == old(Current())[rows.owners[row] := value]
      ensures Held() == old(Held())[rows.owners[row] := value]
    {
      ghost var e := rows.owners[row];
      ValueSetKeepsValid(rows, row, value);
      SameLinks(rows, ValueSet(rows, row, value));
      rows := rows.(values := rows.values[row := value], held := rows.held[e := value],
                    current := rows.current[e := value]);
    }

    /** Exchanges rows a and b. a is the row its owner's index links to; the
        owner of b may share that index, and have lost its link to it. */
    method Swap(a: nat, b: nat)
      requires rows.Shape() && rows.Observes() && a < |rows.owners| && b < |rows.owners|
      modifies this
      ensures rows == Swapped(old(rows), a, b)
    {
      if a == b {
        return;
      }
      var ownerA, ownerB := rows.owners[a], rows.owners[b];
      // b's link is read before a's is written: the owners may share an index.
      var linkedB := ownerB.index in rows.links && rows.links[ownerB.index] == b;
      rows := rows.(links := rows.links[ownerA.index := b]);
      if linkedB {
        rows := rows.(links := rows.links[ownerB.index := a]);
      }
      rows := rows.(owners := Exchanged(rows.owners, a, b), states := Exchanged(rows.states, a, b),
                    values := Exchanged(rows.values, a, b), shadows := Exchanged(rows.shadows, a, b),
                    rowOf := rows.rowOf[ownerB := a][ownerA := b]);
    }

    /** Brings e's row in the tail back, with the value it last held. */
    method Revive(e: Entity, tail: nat)
      requires Valid() && rows.Observes() && rows.IsLinked(e) && rows.rowOf[e] == tail && tail >= rows.live
      requires tail < |rows.owners| && rows.owners[tail] == e && e in Held()
      modifies this
      ensures Valid() && (old(AllLinked()) ==> AllLinked())
      ensures rows.observation == old(rows.observation) && Baseline() == old(Baseline()) && Held() == old(Held())
      ensures rows.live == old(rows.live) + 1 && rows.owners[rows.live - 1] == e
      ensures rows.states[rows.live - 1] != RowUnchanged
      ensures Current() == old(Current())[e := Held()[e]]
    {
      ghost var s := rows;
      Swap(tail, rows.live);
      SwappedKeepsValid(s, tail, s.live);
      SwappedSameLinks(s, tail, s.live);
      RevivedKeepsValid(rows, e);
      SameLinks(rows, Revived(rows, e));
      var state := if rows.states[rows.live] == RowDiscarded then RowAdded else RowChanged;
      rows := rows.(states := rows.states[rows.live := state], live := rows.live + 1,
                    current := rows.current[e := rows.held[e]]);
    }

    /** Gives e a new row at the end, which takes its index's link. */
    method Append(e: Entity, memory: V, shadowMemory: V)
      requires Valid() && rows.Observes() && e !in Current() && !rows.IsLinked(e)
      modifies this
      ensures rows == Appended(old(rows), e, memory, shadowMemory, rows.changed)
      ensures ListsNewRow(old(rows), e, rows.changed)
    {
      assert rows.ListingOk(e);
      if e.index in rows.links {
        // e's index links another owner's row, which loses its link.
        rows := rows.(changed := rows.changed.(overflowed := true));
      }
      var row := |rows.owners|;
      rows := rows.(owners := rows.owners + [e], values := rows.values + [memory],
                    shadows := rows.shadows + [shadowMemory], links := rows.links[e.index := row],
                    states := rows.states + [RowAdded],
                    rowOf := rows.rowOf[e := row], held := rows.held[e := memory]);
      ListChanged(e);
    }

    /** Gives e a new row at the end, and moves it behind the live rows. */
    method Insert(e: Entity, memory: V, shadowMemory: V)
      requires Valid() && rows.Observes() && e !in Current() && !rows.IsLinked(e)
      modifies this
      ensures Valid() <==> old(rows).CanAdd(e)
      ensures Valid() && old(AllLinked()) && (forall o | o in old(Held()) :: o.index != e.index) ==> AllLinked()
      ensures rows.observation == old(rows.observation) && Baseline() == old(Baseline())
      ensures rows.live == old(rows.live) + 1 <= |rows.owners| == |rows.states| && rows.owners[rows.live - 1] == e
      ensures rows.states[rows.live - 1] != RowUnchanged
      ensures ListsNewRow(old(rows), e, rows.changed)
      ensures Valid() ==> SameLiveRows(old(rows), rows)
      ensures Valid() ==> forall o: Entity | o.index != e.index :: rows.IsLinked(o) <==> old(rows).IsLinked(o)
      ensures Held() == old(Held())[e := memory]
      ensures Current() == old(Current())[e := memory]
    {
      ghost var s := rows;
      Append(e, memory, shadowMemory);
      Swap(|rows.owners| - 1, rows.live);
      ghost var changed := rows.changed;
      rows := rows.(live := rows.live + 1, current := rows.current[e := memory]);
      assert rows == Inserted(s, e, memory, shadowMemory, changed);
      InsertedKeepsAll(s, e, memory, shadowMemory, changed);
    }

    /** Gives e a live row. A row e left in the tail this window is brought
        back with the value it last held; a new row holds whatever its memory
        does. The store stays sound exactly if e can be added. */
    method Add(e: Entity, memory: V, shadowMemory: V) returns (row: nat)
      requires Valid() && e !in Current()
      modifies this
      ensures Valid() <==> old(rows).CanAdd(e)
      ensures Valid() && old(AllLinked()) && (forall o | o in old(Held()) :: o.index == e.index ==> o == e) ==>
                AllLinked()
      ensures rows.observation == old(rows.observation) && Baseline() == old(Baseline())
      ensures row + 1 == rows.live <= |rows.owners| && rows.owners[row] == e
      ensures rows.Observes() ==> row < |rows.states| && rows.states[row] != RowUnchanged
      ensures Held() == old(Held())[e := if e in old(Held()) && old(rows).IsLinked(e) then old(Held())[e] else memory]
      ensures Current() == old(Current())[e := Held()[e]]
    {
      ghost var s := rows;
      assert s.ContentOk(e) && s.LiveOk(e) && s.LinkOk(e.index);
      if rows.Observes() {
        var tail := rows.TailRow(e);
        if tail.Some? {
          Revive(e, tail.value);
        } else {
          Insert(e, memory, shadowMemory);
        }
      } else {
        AddedKeepsValidIff(s, e, memory);
        row := |rows.owners|;
        rows := rows.(owners := rows.owners + [e], values := rows.values + [memory],
                      links := rows.links[e.index := row], rowOf := rows.rowOf[e := row],
                      held := rows.held[e := memory], live := rows.live + 1, current := rows.current[e := memory]);
        if Valid() {
          UnobservedAllLinked(rows);
        }
      }
      row := rows.live - 1;
    }

    /** Takes e's live row out: an observed store keeps it in the tail, any
        other drops it. The last live row moves into its place. */
    method Remove(e: Entity, row: nat)
      requires Valid() && row < rows.live && rows.owners[row] == e
      modifies this
      ensures Valid() && (old(AllLinked()) ==> AllLinked())
      ensures rows.observation == old(rows.observation) && Baseline() == old(Baseline())
      ensures Current() == old(Current()) - {e}
      ensures Held() == if rows.Observes() then old(Held()) else old(Held()) - {e}
      ensures rows.live == old(rows.live) - 1
      ensures rows.owners[..rows.live] == old(rows.owners)[row := old(rows.owners)[rows.live]][..rows.live]
      ensures SameStates(old(rows), rows)
    {
      var last := rows.live - 1;
      if rows.Observes() {
        Bury(e, row);
      } else {
        DroppedKeepsValid(rows, e, row);
        var moved := rows.owners[last];
        var links := if row != last then rows.links[moved.index := row] else rows.links;
        ghost var rowOf := if row != last then rows.rowOf[moved := row] else rows.rowOf;
        rows := rows.(live := last, owners := rows.owners[row := moved][..last],
                      values := rows.values[row := rows.values[last]][..last],
                      links := links - {e.index}, rowOf := rowOf - {e},
                      held := rows.held - {e}, current := rows.current - {e});
        UnobservedAllLinked(rows);
      }
    }

    /** Moves e's live row to the tail. */
    method Bury(e: Entity, row: nat)
      requires Valid() && rows.Observes() && row < rows.live && rows.owners[row] == e
      modifies this
      ensures Valid() && (old(AllLinked()) ==> AllLinked())
      ensures rows.observation == old(rows.observation) && Baseline() == old(Baseline())
      ensures Current() == old(Current()) - {e} && Held() == old(Held())
      ensures rows.live == old(rows.live) - 1
      ensures rows.owners == Exchanged(old(rows.owners), row, rows.live) && SameStates(old(rows), rows)
    {
      var last := rows.live - 1;
      ghost var s := rows;
      assert s.RowOk(row) && s.LiveOk(e);
      Swap(row, last);
      SwappedKeepsValid(s, row, last);
      SwappedSameLinks(s, row, last);
      EndLastRow(e);
      BuriedKeepsStates(s, row, e, rows.changed);
    }

    /** Ends the last live row, e's. */
    method EndLastRow(e: Entity)
      requires Valid() && rows.Observes() && rows.live > 0 && rows.owners[rows.live - 1] == e
      modifies this
      ensures rows.Shape() && rows == Buried(old(rows), e, rows.changed)
      ensures Valid() && (old(AllLinked()) ==> AllLinked())
    {
      var last := rows.live - 1;
      ghost var s := rows;
      assert s.RowOk(last) && s.ListingOk(e) && s.ContentOk(e);
      rows := rows.(live := last, current := rows.current - {e});
      if rows.states[last] == RowAdded {
        rows := rows.(states := rows.states[last := RowDiscarded]);
      } else {
        if rows.states[last] == RowUnchanged {
          ListChanged(e);
        }
        rows := rows.(states := rows.states[last := RowRemoved]);
      }
      BuriedKeepsValid(s, e, rows.changed);
      SameLinks(s, rows);
    }

    /** Starts observing, every row counting as added. */
    method StartObservation(shadowMemory: V)
      requires Valid()
      modifies this
      ensures Valid() && (old(AllLinked()) ==> AllLinked())
      ensures Current() == old(Current()) && Held() == old(Held()) && Baseline() == old(Baseline())
      ensures rows.observation == if old(rows.observation) == ObserverWaiting then Observed else old(rows.observation)
    {
      if rows.observation != ObserverWaiting {
        return;
      }
      StartedKeepsValid(rows, shadowMemory);
      SameLinks(rows, Started(rows, shadowMemory));
      rows := rows.(observation := Observed, changed := rows.changed.(overflowed := true),
                    shadows := seq(|rows.owners|, _ => shadowMemory),
                    states := seq(|rows.owners|, _ => RowAdded));
    }

    /** Ends the window: every live row's shadow takes its value, and the tail
        is dropped. */
    method ResetObservation()
      requires Valid()
      modifies this
      ensures Valid() && (old(AllLinked()) ==> AllLinked())
      ensures Current() == old(Current()) && rows.observation == old(rows.observation)
      ensures if rows.Observes() then Baseline() == Current() && Held() == Current() && AllLinked()
              else Baseline() == old(Baseline()) && Held() == old(Held())
    {
      if !rows.Observes() {
        return;
      }
      ghost var s := rows;
      SettledKeepsValid(s);
      SettleShadows();
      rows := rows.(changed := ChangeList([], map[], false));
      forall i: nat ensures rows.LinkOk(i) { assert s.LinkOk(i); }
      var links := DropLinks();
      rows := rows.(links := links, owners := rows.owners[..rows.live], values := rows.values[..rows.live],
                    shadows := rows.shadows[..rows.live], states := rows.states[..rows.live],
                    rowOf := map e | e in rows.rowOf && rows.rowOf[e] < rows.live :: rows.rowOf[e],
                    held := rows.current, baseline := rows.current);
      assert rows == Settled(s);
    }

    /** Every live row's shadow takes its value, through the listing, or through
        every row once it stopped. */
    method SettleShadows()
      requires Valid() && rows.Observes()
      modifies this
      ensures rows == old(rows).(shadows := rows.shadows, states := rows.states)
      ensures |rows.shadows| == |rows.states| == |rows.owners|
      ensures forall r | 0 <= r < rows.live :: rows.shadows[r] == rows.values[r] && rows.states[r] == RowUnchanged
    {
      ghost var s := rows;
      for i := 0 to rows.WalkedRows()
        invariant rows == s.(shadows := rows.shadows, states := rows.states)
        invariant |rows.shadows| == |rows.states| == |rows.owners|
        invariant forall r | 0 <= r < rows.live ::
          || (rows.shadows[r] == rows.values[r] && rows.states[r] == RowUnchanged)
          || (rows.shadows[r] == s.shadows[r] && rows.states[r] == s.states[r] && NotWalked(s, r, i))
      {
        var row := i;
        if !rows.changed.overflowed {
          assert s.ListedRow(i) < |s.owners|;
          row := rows.links[rows.changed.entities[i].index];
        }
        forall r | 0 <= r < rows.live && r != row && NotWalked(s, r, i) ensures NotWalked(s, r, i + 1) {
          assert s.RowOk(r) && s.RowOk(row);
        }
        if row < rows.live {
          if rows.states[row] != RowUnchanged {
            rows := rows.(shadows := rows.shadows[row := rows.values[row]], states := rows.states[row := RowUnchanged]);
          } else if rows.shadows[row] != rows.values[row] {
            assert s.RowOk(row) && s.ContentOk(s.owners[row]);
          }
        }
      }
      forall r | 0 <= r < rows.live && NotWalked(s, r, s.WalkedRows())
        ensures s.states[r] == RowUnchanged && s.values[r] == s.shadows[r]
      {
        UnlistedIsUnchanged(s, r);
      }
    }

    /** The links that lead to live rows. */
    method DropLinks() returns (links: map<nat, nat>)
      requires forall i: nat {:trigger rows.LinkOk(i)} :: rows.LinkOk(i)
      requires rows.live <= |rows.owners|
      ensures links == map i | i in rows.links && rows.links[i] < rows.live :: rows.links[i]
    {
      links := rows.links;
      for row := rows.live to |rows.owners|
        invariant links == map i | i in rows.links && !(rows.live <= rows.links[i] < row) :: rows.links[i]
      {
        var index := rows.owners[row].index;
        if index in links && links[index] == row {
          links := links - {index};
        }
        forall i | i in rows.links && rows.links[i] == row ensures i == index {
          assert rows.LinkOk(i);
        }
      }
      forall i | i in rows.links ensures rows.links[i] < |rows.owners| {
        assert rows.LinkOk(i);
      }
    }
  }

  /** Whether the reset has still to visit row, having visited the first i. */
  ghost predicate NotWalked<V>(s: StoreState<V>, row: nat, i: nat)
    requires row < |s.owners|
  {
    if s.changed.overflowed then i <= row
    else i <= |s.changed.entities| && s.owners[row] !in s.changed.entities[..i]
  }
}
