/** The terms of a query: the store each walks or probes, and how
    (ecs/query.go). All of a world's components share one value type. */
module EcsTerms {
  import opened EcsStoreState
  import opened EcsStore

  datatype TermMode = TermRead | TermWrite | TermWith | TermWithout | TermOptionalRead | TermOptionalWrite {
    /** Whether an entity matching the term has a row in its store. */
    predicate Drives() {
      TermRead? || TermWrite? || TermWith?
    }

    predicate Writes() {
      TermWrite? || TermOptionalWrite?
    }

    predicate Optional() {
      TermOptionalRead? || TermOptionalWrite?
    }
  }

  datatype Term<V(==)> = Term(store: Store<V>, mode: TermMode)

  /** A term with its store's contents at one moment. */
  datatype TermView<V(==)> = TermView(mode: TermMode, rows: StoreState<V>)

  ghost function StoresOf<V>(terms: seq<Term<V>>): set<Store<V>> {
    set i | 0 <= i < |terms| :: terms[i].store
  }

  ghost function Views<V>(terms: seq<Term<V>>): (views: seq<TermView<V>>)
    reads StoresOf(terms)
    ensures |views| == |terms|
    ensures forall i | 0 <= i < |terms| :: views[i] == TermView(terms[i].mode, terms[i].store.rows)
  {
    seq(|terms|, i requires 0 <= i < |terms| reads StoresOf(terms) =>
      TermView(terms[i].mode, terms[i].store.rows))
  }
}
