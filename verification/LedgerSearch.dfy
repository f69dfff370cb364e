/** The depth-first search for the ancestors a new record endorses: what its loops keep. */
module LedgerSearch {
  import opened Records
  import opened Dag
  import opened LedgerState
  import opened LedgerInvariant

  /** Newly marked records are stacked, nothing else changed. */
  ghost predicate Grown(stack0: seq<Name>, updated0: set<Name>, stack: seq<Name>, updated: set<Name>) {
    && updated0 <= updated && (updated == updated0 ==> stack == stack0)
    && forall n :: n in stack0 || (n in updated && n !in updated0) ==> n in stack
  }

  /** Everything marked or stacked was reached from the root through unmarked records. */
  ghost predicate Visited(t: Tail, root: Name, stack: seq<Name>, updated: set<Name>) {
    && (forall n :: n in updated ==> n in t && n != root && Reaches(Unmarked(t, root), root, n))
    && (forall n :: n in stack ==> n == root || n in updated)
  }

  /** Whatever was reached and is no longer stacked has passed its mark on to all its pointers. */
  ghost predicate Expanded(t: Tail, root: Name, stack: seq<Name>, updated: set<Name>) {
    forall n, p ::
      (n == root || n in updated) && n !in stack && Edge(Unmarked(t, root), n, p) && p != root ==> p in updated
  }

  lemma SearchStarts(t: Tail, root: Name)
    ensures Visited(t, root, [root], {}) && Expanded(t, root, [root], {}) && Mark(t, {}, root.producer) == t
  {
  }

  lemma VisitedPush(t: Tail, root: Name, current: Name, p: Name, stack: seq<Name>, updated: set<Name>)
    requires Visited(t, root, stack, updated) && root in t
    requires current in t && (current == root || current in updated) && p in t[current].record.pointers
    requires p in t && p.producer != root.producer && root.producer !in t[p].refSet
    ensures Visited(t, root, stack + [p], updated + {p})
  {
    var u := Unmarked(t, root);
    ReachesSelf(u, root);
    ReachesWithin(u, root, current);
    ReachesStep(u, root, current, p);
  }

  lemma MarkOneMore(t: Tail, marks: set<Name>, q: Producer, p: Name)
    requires p in t
    ensures var marked := Mark(t, marks, q);
      marked[p := marked[p].(refSet := marked[p].refSet + {q})] == Mark(t, marks + {p}, q)
  {
  }

  lemma ExpandedStays(t: Tail, root: Name, current: Name, stack0: seq<Name>, updated0: set<Name>,
                      stack: seq<Name>, updated: set<Name>)
    requires Expanded(t, root, stack0, updated0) && current in t
    requires updated0 <= updated
    requires forall n :: n in stack0 && n != current ==> n in stack
    requires forall n :: n in updated && n !in updated0 ==> n in stack
    requires forall p :: p in t[current].record.pointers && p in Unmarked(t, root) && p != root ==> p in updated
    ensures Expanded(t, root, stack, updated)
  {
  }

  /** The search only ever meets records whose lookup succeeds. */
  lemma VisitedVerified(t: Tail, root: Name, updated: set<Name>, n: Name)
    requires Rooted(t, root) && t[root].parentOk && Visited(t, root, [], updated)
    requires n == root || n in updated
    ensures n in t && t[n].parentOk && (n.rtype == Genesis ==> t[n].record.pointers == [])
  {
    MarksVerified(t, root);
    assert n in updated ==> n in Marks(t, root);
  }

  lemma FewerLeft(t: Tail, root: Name, before: set<Name>, stack: seq<Name>, updated: set<Name>)
    requires before <= updated && Visited(t, root, stack, updated)
    ensures updated != before ==> t.Keys - updated < t.Keys - before
  {
    if updated != before {
      var n :| n in updated && n !in before;
      assert n in t.Keys - before && n !in t.Keys - updated;
    }
  }

  lemma ExpandedIsMarks(t: Tail, root: Name, updated: set<Name>)
    requires root in t && Visited(t, root, [], updated) && Expanded(t, root, [], updated)
    ensures updated == Marks(t, root)
  {
    var u := Unmarked(t, root);
    forall n | n in Marks(t, root) ensures n in updated {
      ReachesInto(u, root, n, updated + {root});
    }
  }
}
