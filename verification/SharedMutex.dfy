/** A mutex with a shared and a unique side, and what a step of one thread does to it. */
module SharedMutex {
  import opened Linearizability

  /** readers hold the shared side, writer says whether the unique side is held. */
  ghost predicate Locked<L(!new)>(readers: set<OpId>, writer: bool, threads: map<OpId, L>, shared: L -> bool,
                                  unique: L -> bool) {
    && (forall t :: t in readers <==> t in threads && shared(threads[t]))
    && (forall t :: t in threads && unique(threads[t]) ==> writer)
    && (forall t, u :: t in threads && u in threads && unique(threads[t]) && unique(threads[u]) ==> t == u)
    && (writer ==> readers == {})
  }

  ghost predicate Locks<L(!new)>(readers: set<OpId>, writer: bool, threads: map<OpId, L>, shared: L -> bool,
                                 unique: L -> bool) {
    forall k {:trigger Inside(k)} :: Inside(k) ==> Locked(readers, writer, threads, shared, unique)
  }

  /** A step that may take or release either side. */
  lemma LocksStep<L(!new)>(readers: set<OpId>, writer: bool, threads: map<OpId, L>, shared: L -> bool,
                           unique: L -> bool, t: OpId, l: L, readers': set<OpId>, writer': bool)
    requires Locks(readers, writer, threads, shared, unique)
    requires !(shared(l) && unique(l))
    requires readers' == (if shared(l) then readers + {t} else readers - {t})
    requires writer' == (if unique(l) then true else if t in threads && unique(threads[t]) then false else writer)
    requires shared(l) && !(t in threads && shared(threads[t])) ==> !writer
    requires unique(l) && !(t in threads && unique(threads[t])) ==> readers == {} && !writer
    ensures Locks(readers', writer', threads[t := l], shared, unique)
  {
    assert Inside(0);
  }

  /** A step that takes and releases nothing. */
  lemma LocksSame<L(!new)>(readers: set<OpId>, writer: bool, threads: map<OpId, L>, shared: L -> bool,
                           unique: L -> bool, t: OpId, l: L)
    requires Locks(readers, writer, threads, shared, unique)
    requires shared(l) <==> t in threads && shared(threads[t])
    requires unique(l) <==> t in threads && unique(threads[t])
    ensures Locks(readers, writer, threads[t := l], shared, unique)
  {
    assert Inside(0);
  }

  /** While the unique side is held nobody holds the shared side. */
  lemma UniqueExcludes<L(!new)>(readers: set<OpId>, writer: bool, threads: map<OpId, L>, shared: L -> bool,
                                unique: L -> bool, t: OpId)
    requires Locks(readers, writer, threads, shared, unique) && t in threads && unique(threads[t])
    ensures writer && readers == {} && forall u :: u in threads ==> !shared(threads[u])
  {
    assert Inside(0);
    forall u | u in threads ensures !shared(threads[u]) { assert u !in readers; }
  }

  lemma LocksInit<L(!new)>(shared: L -> bool, unique: L -> bool)
    ensures Locks({}, false, map[], shared, unique)
  {}
}
