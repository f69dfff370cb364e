/** What every step of one peer keeps. */
module LedgerInvariant {
  import opened Records
  import opened Dag
  import opened LedgerState

  // ---- The invariant -------------------------------------------------------------------------

  /** Names identify packets; tail and backend hold packets obtained before. */
  ghost predicate Named(s: Node) {
    && (forall n :: n in s.known ==> s.known[n].name == n)
    && (forall n :: n in s.tail ==> n in s.known && s.tail[n].record == s.known[n])
    && (forall n :: n in s.backend ==> n in s.known && s.backend[n] == s.known[n])
  }

  /** Waiting records are packets obtained before that passed the syntax check. */
  ghost predicate Stacked(s: Node) {
    forall w :: w in s.stack ==>
      && w.record.name in s.known && s.known[w.record.name] == w.record
      && Interlock(w.record) && w.record.name.rtype != Genesis
  }

  /** Every pointer of a tail record is in the tail or confirmed. */
  ghost predicate Linked(t: Tail, backend: map<Name, Record>) {
    forall n, p :: n in t && p in t[n].record.pointers ==> p in t || p in backend
  }

  /** The two flags agree, and whatever a tail record points to in the tail is verified. */
  ghost predicate Flagged(t: Tail) {
    && (forall n :: n in t ==> t[n].parentOk == t[n].recordOk)
    && (forall n, p :: n in t && p in t && p in t[n].record.pointers ==> t[p].parentOk)
  }

  ghost predicate Interlocked(t: Tail) {
    && (forall n :: n in t ==> t[n].record.name == n)
    && (forall n, p :: n in t && p in t[n].record.pointers ==> p.producer != n.producer)
    && (forall n :: n in t && n.rtype == Genesis ==> t[n].record.pointers == [])
  }

  /** Nobody endorses itself, and only verified records are endorsed. */
  ghost predicate Modest(t: Tail) {
    && (forall n :: n in t ==> n.producer !in t[n].refSet)
    && (forall n :: n in t && !t[n].parentOk ==> t[n].refSet == {})
  }

  /** The producer of a verified record endorses what the record points to. */
  ghost predicate Credited(t: Tail) {
    forall n, p :: n in t && p in t && p in t[n].record.pointers && t[n].parentOk
      ==> n.producer in t[p].refSet
  }

  /** Endorsers of a record endorse what it points to, except what they wrote themselves. */
  ghost predicate Flowing(t: Tail) {
    forall n, p, q :: n in t && p in t && p in t[n].record.pointers && q in t[n].refSet
      ==> q == p.producer || q in t[p].refSet
  }

  ghost predicate Endorsed(t: Tail) {
    Modest(t) && Credited(t) && Flowing(t)
  }

  /** Between calls the tail holds light records only, confirmed exactly from confirmWeight on. */
  ghost predicate Weighed(cfg: Config, t: Tail, backend: map<Name, Record>) {
    forall n :: n in t ==>
      && |t[n].refSet| < cfg.RemoveWeight()
      && (n in backend <==> |t[n].refSet| >= cfg.confirmWeight)
  }

  /** Confirmed records point to confirmed records; those gone from the tail to none left in it. */
  ghost predicate Anchored(t: Tail, backend: map<Name, Record>) {
    && (forall n, p :: n in backend && p in backend[n].pointers ==> p in backend)
    && (forall n, p :: n in backend && n !in t && p in backend[n].pointers ==> p !in t)
  }

  /** Tail and backend hold the same record under the same name. */
  ghost predicate Agree(t: Tail, backend: map<Name, Record>) {
    forall n :: n in t && n in backend ==> backend[n] == t[n].record
  }

  /** The part of the invariant that speaks of tail and backend alone. */
  ghost predicate Sound(cfg: Config, t: Tail, backend: map<Name, Record>) {
    && Linked(t, backend) && Flagged(t) && Interlocked(t) && Endorsed(t)
    && Weighed(cfg, t, backend) && Anchored(t, backend) && Agree(t, backend)
  }

  /** Insertion order is a topological order of the tail. */
  ghost predicate Ranked(s: Node) {
    && (forall n :: n in s.tail ==> n in s.rank && s.rank[n] < s.births)
    && (forall n, p :: n in s.tail && p in s.tail && p in s.tail[n].record.pointers
          ==> s.rank[p] < s.rank[n])
  }

  /** Every name ever verified is a known packet all of whose pointers were verified too. */
  ghost predicate Vouched(s: Node) {
    && (forall n :: n in s.tail && s.tail[n].parentOk ==> n in s.verified)
    && (forall n :: n in s.backend ==> n in s.verified)
    && (forall n :: n in s.verified ==> n in s.known)
    && (forall n, p :: n in s.verified && p in s.known[n].pointers ==> p in s.verified)
  }

  /** q wrote a record that was verified here and leads to n. */
  ghost predicate Witness(s: Node, q: Producer, n: Name) {
    exists w :: w in s.verified && w.producer == q && w != n && Reaches(s.known, w, n)
  }

  ghost predicate Witnessed(s: Node) {
    && (forall n, q :: n in s.tail && q in s.tail[n].refSet ==> Witness(s, q, n))
    && (forall i, q :: 0 <= i < |s.log| && q in s.log[i].endorsers ==> Witness(s, q, s.log[i].record.name))
  }

  /** Each confirmation names a confirmed record and exactly confirmWeight foreign endorsers. */
  ghost predicate Logged(cfg: Config, s: Node) {
    forall i :: 0 <= i < |s.log| ==>
      && s.log[i].record.name in s.backend
      && s.backend[s.log[i].record.name] == s.log[i].record
      && |s.log[i].endorsers| == cfg.confirmWeight
      && s.log[i].record.name.producer !in s.log[i].endorsers
  }

  /** Every confirmed record was confirmed exactly once. */
  ghost predicate LoggedOnce(s: Node) {
    && (forall i, j :: 0 <= i < j < |s.log| ==> s.log[i].record.name != s.log[j].record.name)
    && (forall n :: n in s.backend ==> exists i :: 0 <= i < |s.log| && s.log[i].record.name == n)
  }

  ghost predicate Inv(cfg: Config, s: Node) {
    && Named(s)
    && Stacked(s)
    && Sound(cfg, s.tail, s.backend)
    && Ranked(s)
    && Vouched(s)
    && Witnessed(s)
    && Logged(cfg, s)
    && LoggedOnce(s)
  }

  // ---- Sets of endorsers ---------------------------------------------------------------------

  lemma {:induction false} SubsetSize<T>(a: set<T>, b: set<T>)
    requires a <= b
    ensures |a| <= |b|
  {
    if a != {} {
      var x :| x in a;
      SubsetSize(a - {x}, b - {x});
    }
  }

  /** Passing endorsers on, minus one own producer and plus one new endorser, loses no weight. */
  lemma EndorsersCarry(a: set<Producer>, b: set<Producer>, own: Producer, extra: Producer)
    requires forall q :: q in a ==> q == own || q in b
    requires extra in b && extra !in a
    ensures |a| <= |b|
  {
    SubsetSize((a - {own}) + {extra}, b);
    if own in a {
      assert |a - {own}| == |a| - 1;
      assert |(a - {own}) + {extra}| == |a - {own}| + 1;
    } else {
      assert a - {own} == a;
    }
  }

  /** Weight never increases from a record to a record pointing to it. */
  lemma WeightDescends(t: Tail, n: Name, p: Name)
    requires Interlocked(t) && Endorsed(t)
    requires n in t && p in t && p in t[n].record.pointers
    ensures |t[n].refSet| <= |t[p].refSet|
  {
    if t[n].parentOk {
      EndorsersCarry(t[n].refSet, t[p].refSet, p.producer, n.producer);
    } else {
      assert |t[n].refSet| == 0;
    }
  }

  lemma WeightDescendsFar(t: Tail, n: Name, p: Name)
    requires Interlocked(t) && Endorsed(t)
    requires Reaches(Held(t), n, p)
    ensures n in t && p in t && |t[n].refSet| <= |t[p].refSet|
  {
    ReachesWithin(Held(t), n, p);
    var heavier := set x | x in t && |t[n].refSet| <= |t[x].refSet|;
    forall x, y | x in heavier && Edge(Held(t), x, y) ensures y in heavier {
      WeightDescends(t, x, y);
    }
    ReachesInto(Held(t), n, p, heavier);
  }

  // ---- Inserting and marking -----------------------------------------------------------------

  /** What every caller of addToTailingRecord guarantees about the record. */
  ghost predicate Addable(s: Node, r: Record, endorsed: bool) {
    && !Seen(s.tail, s.backend, r.name)
    && Genuine(s, r)
    && Interlock(r)
    && (r.name.rtype == Genesis ==> r.pointers == [])
    && (forall p :: p in r.pointers ==> Has(s.tail, s.backend, p))
    && (endorsed ==> forall p :: p in r.pointers ==> p in s.tail)
  }

  /** The tail between inserting and marking: sound, but the root's pointers lack its producer. */
  ghost predicate Rooted(t: Tail, root: Name) {
    && root in t && t[root].refSet == {}
    && Flagged(t) && Interlocked(t) && Modest(t) && Flowing(t)
    && CreditedBut(t, root)
    && (forall n :: n in t ==> root !in t[n].record.pointers)
  }

  ghost predicate CreditedBut(t: Tail, root: Name) {
    forall n, p :: n in t && n != root && p in t && p in t[n].record.pointers && t[n].parentOk
      ==> n.producer in t[p].refSet
  }

  lemma UnseenUnlinked(s: Node, r: Record)
    requires Linked(s.tail, s.backend) && Interlock(r) && !Seen(s.tail, s.backend, r.name)
    ensures forall n :: n in s.tail ==> r.name !in s.tail[n].record.pointers
    ensures r.name !in r.pointers
  {
  }

  lemma InsertFlags(s: Node, r: Record, endorsed: bool, at: int)
    requires Flagged(s.tail) && Interlocked(s.tail) && Linked(s.tail, s.backend)
    requires Addable(s, r, endorsed)
    ensures var t := Insert(s.tail, r, endorsed, at);
      Flagged(t) && Interlocked(t) && t[r.name].parentOk == endorsed
  {
  }

  lemma InsertFlows(s: Node, r: Record, endorsed: bool, at: int)
    requires Endorsed(s.tail) && Linked(s.tail, s.backend)
    requires Addable(s, r, endorsed)
    ensures var t := Insert(s.tail, r, endorsed, at);
      Modest(t) && Flowing(t) && CreditedBut(t, r.name)
  {
  }

  lemma InsertRoots(s: Node, r: Record, endorsed: bool, at: int)
    requires Flagged(s.tail) && Interlocked(s.tail) && Linked(s.tail, s.backend)
    requires Endorsed(s.tail) && Addable(s, r, endorsed)
    ensures Rooted(Insert(s.tail, r, endorsed, at), r.name)
    ensures Insert(s.tail, r, endorsed, at)[r.name].parentOk == endorsed
  {
    UnseenUnlinked(s, r);
    InsertFlags(s, r, endorsed, at);
    InsertFlows(s, r, endorsed, at);
  }

  /** A marked record and, when the root is verified, the root pass the mark on. */
  lemma MarkPasses(t: Tail, root: Name, n: Name, p: Name)
    requires Rooted(t, root)
    requires n == root || n in Marks(t, root)
    requires p in t && p in t[n].record.pointers
    ensures p.producer == root.producer || root.producer in t[p].refSet || p in Marks(t, root)
  {
    var u := Unmarked(t, root);
    if p.producer != root.producer && root.producer !in t[p].refSet {
      ReachesSelf(u, root);
      ReachesWithin(u, root, n);
      assert Edge(u, n, p);
      ReachesStep(u, root, n, p);
    }
  }

  lemma MarksVerified(t: Tail, root: Name)
    requires Rooted(t, root) && t[root].parentOk
    ensures forall n :: n in Marks(t, root) ==>
      n in t && t[n].parentOk && n.producer != root.producer && root.producer !in t[n].refSet
  {
    var u := Unmarked(t, root);
    var ok := set n | n in u && t[n].parentOk;
    assert Closed(u, ok);
    forall n | n in Marks(t, root) ensures n in ok {
      ReachesInto(u, root, n, ok);
    }
  }

  lemma MarkFlows(t: Tail, root: Name, marks: set<Name>)
    requires Rooted(t, root)
    requires marks == {} || marks == Marks(t, root)
    ensures Flowing(Mark(t, marks, root.producer))
  {
    var marked := Mark(t, marks, root.producer);
    forall n, p, q | n in t && p in t && p in t[n].record.pointers && q in marked[n].refSet
      ensures q == p.producer || q in marked[p].refSet
    {
      if n in marks && q == root.producer {
        MarkPasses(t, root, n, p);
      }
    }
  }

  lemma MarkCredits(t: Tail, root: Name, marks: set<Name>)
    requires Rooted(t, root)
    requires marks == if t[root].parentOk then Marks(t, root) else {}
    ensures Credited(Mark(t, marks, root.producer))
  {
    var marked := Mark(t, marks, root.producer);
    forall n, p | n in t && p in t && p in t[n].record.pointers && t[n].parentOk
      ensures n.producer in marked[p].refSet
    {
      if n == root {
        MarkPasses(t, root, n, p);
      }
    }
  }

  lemma MarkModest(t: Tail, root: Name, marks: set<Name>)
    requires Rooted(t, root)
    requires marks == if t[root].parentOk then Marks(t, root) else {}
    ensures Modest(Mark(t, marks, root.producer))
  {
    if t[root].parentOk {
      MarksVerified(t, root);
    }
  }

  lemma MarkFlags(t: Tail, marks: set<Name>, q: Producer)
    requires Flagged(t) && Interlocked(t)
    ensures Flagged(Mark(t, marks, q)) && Interlocked(Mark(t, marks, q))
  {
  }

  // ---- Confirming, pruning and evicting ------------------------------------------------------

  /** The first tail is part of the second. */
  ghost predicate Restricts(u: Tail, t: Tail) {
    forall n :: n in u ==> n in t && u[n] == t[n]
  }

  lemma RestrictFlags(u: Tail, t: Tail)
    requires Restricts(u, t) && Flagged(t) && Interlocked(t)
    ensures Flagged(u) && Interlocked(u)
  {
  }

  lemma RestrictEndorses(u: Tail, t: Tail)
    requires Restricts(u, t) && Endorsed(t)
    ensures Endorsed(u)
  {
  }

  /** Confirming and pruning only drop records: whatever is confirmed was verified already. */
  lemma PruneRestricts(cfg: Config, t: Tail, marks: set<Name>)
    requires Modest(t)
    requires cfg.Valid()
    ensures Restricts(Prune(cfg, t, marks), t)
  {
  }

  /** Weights before and after one producer's mark. */
  ghost predicate Grows(t: Tail, marked: Tail, marks: set<Name>) {
    && t.Keys == marked.Keys
    && (forall n :: n in t ==> t[n].record == marked[n].record && t[n].parentOk == marked[n].parentOk)
    && (forall n :: n in t && n in marks ==> |marked[n].refSet| == |t[n].refSet| + 1)
    && (forall n :: n in t && n !in marks ==> |marked[n].refSet| == |t[n].refSet|)
  }

  lemma MarkGrows(t: Tail, marks: set<Name>, q: Producer)
    requires forall n :: n in marks ==> n in t && q !in t[n].refSet
    ensures Grows(t, Mark(t, marks, q), marks)
  {
  }

  /** After pruning, weight alone tells which records are confirmed and which are gone. */
  lemma PruneWeighs(cfg: Config, t: Tail, marked: Tail, marks: set<Name>, backend: map<Name, Record>)
    requires cfg.Valid() && Weighed(cfg, t, backend) && Grows(t, marked, marks)
    ensures var kept := Store(backend, marked, Confirmed(cfg, marked, marks));
      && (forall n :: n in marked ==> (n in kept <==> |marked[n].refSet| >= cfg.confirmWeight))
      && (forall n :: n in marked ==>
            (n !in Prune(cfg, marked, marks) <==> |marked[n].refSet| >= cfg.RemoveWeight()))
  {
  }

  /** What pruning leaves behind, given the facts of PruneWeighs. */
  ghost predicate Settled(cfg: Config, marked: Tail, pruned: Tail, kept: map<Name, Record>) {
    && Restricts(pruned, marked)
    && (forall n :: n in marked ==> (n in kept <==> |marked[n].refSet| >= cfg.confirmWeight))
    && (forall n :: n in marked ==> (n !in pruned <==> |marked[n].refSet| >= cfg.RemoveWeight()))
  }

  lemma SettledLinks(cfg: Config, marked: Tail, pruned: Tail, backend: map<Name, Record>, kept: map<Name, Record>)
    requires Settled(cfg, marked, pruned, kept) && Linked(marked, backend)
    requires backend.Keys <= kept.Keys
    ensures Linked(pruned, kept) && Weighed(cfg, pruned, kept)
  {
  }

  /** The newly confirmed records bring all their ancestors along. */
  lemma SettledAnchors(cfg: Config, marked: Tail, pruned: Tail, backend: map<Name, Record>, kept: map<Name, Record>)
    requires Settled(cfg, marked, pruned, kept) && Linked(marked, backend)
    requires Interlocked(marked) && Endorsed(marked) && Anchored(marked, backend)
    requires forall n :: n in backend ==> n in kept
    requires forall n :: n in kept ==>
      if n in marked then kept[n] == marked[n].record else n in backend && kept[n] == backend[n]
    ensures Anchored(pruned, kept)
  {
    forall n, p | n in kept && p in kept[n].pointers
      ensures p in kept && (n !in pruned ==> p !in pruned)
    {
      if n in marked && p in marked {
        WeightDescends(marked, n, p);
      }
    }
  }

  lemma EvictedUnconfirmed(cfg: Config, t: Tail, now: int)
    requires Interlocked(t) && Endorsed(t)
    ensures forall n :: n in Evicted(cfg, t, now) ==> n in t && |t[n].refSet| < cfg.confirmWeight
  {
    forall n | n in Evicted(cfg, t, now) ensures |t[n].refSet| < cfg.confirmWeight {
      var x :| x in Expired(cfg, t, now) && Reaches(Held(t), n, x);
      WeightDescendsFar(t, n, x);
    }
  }

  /** Eviction takes every tail record pointing to an evicted one. */
  lemma EvictedDownward(t: Tail, roots: set<Name>, n: Name, p: Name)
    requires n in t && p in t[n].record.pointers && p in Descendants(t, roots)
    ensures n in Descendants(t, roots)
  {
    var x :| x in roots && Reaches(Held(t), p, x);
    ReachesPrepend(Held(t), n, p, x);
  }

  lemma EvictKeeps(cfg: Config, t: Tail, kept: map<Name, Record>, now: int)
    requires Interlocked(t) && Endorsed(t)
    requires Linked(t, kept) && Weighed(cfg, t, kept) && Anchored(t, kept)
    ensures var u := t - Evicted(cfg, t, now);
      Restricts(u, t) && Linked(u, kept) && Weighed(cfg, u, kept) && Anchored(u, kept)
  {
    var gone := Evicted(cfg, t, now);
    EvictedUnconfirmed(cfg, t, now);
    forall n, p | n in t && p in t[n].record.pointers && p in gone ensures n in gone {
      EvictedDownward(t, Expired(cfg, t, now), n, p);
    }
  }

  // ---- Adding a record as a whole ------------------------------------------------------------

  /** What holds of the tail after marking and after pruning. */
  ghost predicate Staged(t: Tail, marks: set<Name>, marked: Tail, pruned: Tail) {
    && Grows(t, marked, marks)
    && Endorsed(marked) && Flagged(marked) && Interlocked(marked)
    && Restricts(pruned, marked)
  }

  lemma MarkedSound(cfg: Config, t: Tail, root: Name, marks: set<Name>)
    requires cfg.Valid() && Rooted(t, root)
    requires marks == if t[root].parentOk then Marks(t, root) else {}
    ensures var marked := Mark(t, marks, root.producer); Staged(t, marks, marked, Prune(cfg, marked, marks))
  {
    if t[root].parentOk {
      MarksVerified(t, root);
    }
    MarkGrows(t, marks, root.producer);
    MarkModest(t, root, marks);
    MarkFlags(t, marks, root.producer);
    MarkCredits(t, root, marks);
    MarkFlows(t, root, marks);
    PruneRestricts(cfg, Mark(t, marks, root.producer), marks);
  }

  /** The stages of one addition and what holds between them. */
  lemma Stages(cfg: Config, s: Node, r: Record, endorsed: bool, at: int)
    returns (t: Tail, marks: set<Name>, marked: Tail, pruned: Tail)
    requires cfg.Valid() && Sound(cfg, s.tail, s.backend) && Addable(s, r, endorsed)
    ensures t == Insert(s.tail, r, endorsed, at) && marks == NewMarks(s, r, endorsed, at)
    ensures marked == MarkedTail(s, r, endorsed, at) && pruned == Prune(cfg, marked, marks)
    ensures Staged(t, marks, marked, pruned)
  {
    InsertRoots(s, r, endorsed, at);
    t := Insert(s.tail, r, endorsed, at);
    marks := NewMarks(s, r, endorsed, at);
    MarkedSound(cfg, t, r.name, marks);
    marked := MarkedTail(s, r, endorsed, at);
    pruned := Prune(cfg, marked, marks);
  }

  lemma InsertAnchors(s: Node, r: Record, endorsed: bool, at: int)
    requires Linked(s.tail, s.backend) && Anchored(s.tail, s.backend)
    requires Addable(s, r, endorsed)
    ensures var t := Insert(s.tail, r, endorsed, at);
      Linked(t, s.backend) && Anchored(t, s.backend)
  {
  }

  lemma InsertWeighs(cfg: Config, s: Node, r: Record, endorsed: bool, at: int)
    requires cfg.Valid() && Weighed(cfg, s.tail, s.backend) && Agree(s.tail, s.backend)
    requires !Seen(s.tail, s.backend, r.name)
    ensures var t := Insert(s.tail, r, endorsed, at);
      Weighed(cfg, t, s.backend) && Agree(t, s.backend)
  {
  }

  lemma MarkKeepsLinks(t: Tail, marked: Tail, marks: set<Name>, backend: map<Name, Record>)
    requires Grows(t, marked, marks) && Linked(t, backend) && Anchored(t, backend)
    ensures Linked(marked, backend) && Anchored(marked, backend)
  {
  }

  lemma PrunedSound(cfg: Config, t: Tail, marked: Tail, marks: set<Name>, backend: map<Name, Record>)
    requires cfg.Valid() && Weighed(cfg, t, backend) && Grows(t, marked, marks)
    requires Linked(t, backend) && Anchored(t, backend)
    requires Endorsed(marked) && Flagged(marked) && Interlocked(marked)
    requires Agree(t, backend)
    ensures Sound(cfg, Prune(cfg, marked, marks), Store(backend, marked, Confirmed(cfg, marked, marks)))
  {
    var pruned := Prune(cfg, marked, marks);
    var kept := Store(backend, marked, Confirmed(cfg, marked, marks));
    MarkKeepsLinks(t, marked, marks, backend);
    PruneRestricts(cfg, marked, marks);
    PruneWeighs(cfg, t, marked, marks, backend);
    SettledLinks(cfg, marked, pruned, backend, kept);
    SettledAnchors(cfg, marked, pruned, backend, kept);
    RestrictFlags(pruned, marked);
    RestrictEndorses(pruned, marked);
  }

  lemma EvictSound(cfg: Config, t: Tail, kept: map<Name, Record>, now: int)
    requires Sound(cfg, t, kept)
    ensures Sound(cfg, t - Evicted(cfg, t, now), kept)
  {
    EvictKeeps(cfg, t, kept, now);
    RestrictFlags(t - Evicted(cfg, t, now), t);
    RestrictEndorses(t - Evicted(cfg, t, now), t);
  }

  lemma FinishedSound(cfg: Config, t: Tail, marked: Tail, marks: set<Name>, backend: map<Name, Record>, now: int)
    requires cfg.Valid() && Weighed(cfg, t, backend) && Grows(t, marked, marks)
    requires Linked(t, backend) && Anchored(t, backend)
    requires Endorsed(marked) && Flagged(marked) && Interlocked(marked)
    requires Agree(t, backend)
    ensures var pruned := Prune(cfg, marked, marks);
      Sound(cfg, pruned - Evicted(cfg, pruned, now), Store(backend, marked, Confirmed(cfg, marked, marks)))
  {
    PrunedSound(cfg, t, marked, marks, backend);
    EvictSound(cfg, Prune(cfg, marked, marks), Store(backend, marked, Confirmed(cfg, marked, marks)), now);
  }

  lemma AddedSound(cfg: Config, s: Node, r: Record, endorsed: bool, at: int, s': Node)
    requires cfg.Valid() && Sound(cfg, s.tail, s.backend)
    requires Addable(s, r, endorsed) && Added(cfg, s, r, endorsed, at, s')
    ensures Sound(cfg, s'.tail, s'.backend)
  {
    var t, marks, marked, pruned := Stages(cfg, s, r, endorsed, at);
    InsertAnchors(s, r, endorsed, at);
    InsertWeighs(cfg, s, r, endorsed, at);
    FinishedSound(cfg, t, marked, marks, s.backend, s'.clock);
  }

  /** Where the contents of tail and backend come from when r is added. */
  ghost predicate Origins(s: Node, r: Record, endorsed: bool, s': Node) {
    && (forall n :: n in s'.tail ==>
          if n == r.name then s'.tail[n].record == r && s'.tail[n].parentOk == endorsed
          else n in s.tail && s'.tail[n].record == s.tail[n].record && s'.tail[n].parentOk == s.tail[n].parentOk)
    && (forall n :: n in s'.backend ==>
          if n in s.tail then s'.backend[n] == s.tail[n].record && (n in s.backend || s.tail[n].parentOk)
          else n in s.backend && s'.backend[n] == s.backend[n])
    && s.backend.Keys <= s'.backend.Keys
  }

  lemma TailOrigins(s: Node, r: Record, endorsed: bool, at: int, marked: Tail, marks: set<Name>,
                    pruned: Tail, gone: set<Name>)
    requires var t := Insert(s.tail, r, endorsed, at);
      Grows(t, marked, marks) && t[r.name].parentOk == endorsed
    requires Restricts(pruned, marked)
    ensures forall n :: n in pruned - gone ==>
      if n == r.name then pruned[n].record == r && pruned[n].parentOk == endorsed
      else n in s.tail && pruned[n].record == s.tail[n].record && pruned[n].parentOk == s.tail[n].parentOk
  {
  }

  lemma BackendOrigins(cfg: Config, s: Node, r: Record, endorsed: bool, at: int, marked: Tail, marks: set<Name>)
    requires var t := Insert(s.tail, r, endorsed, at);
      Grows(t, marked, marks) && (forall n :: n in marks ==> n in t && n != r.name && t[n].parentOk)
    requires Agree(s.tail, s.backend)
    ensures var kept := Store(s.backend, marked, Confirmed(cfg, marked, marks));
      && (forall n :: n in kept ==>
            if n in s.tail then kept[n] == s.tail[n].record && (n in s.backend || s.tail[n].parentOk)
            else n in s.backend && kept[n] == s.backend[n])
      && s.backend.Keys <= kept.Keys
  {
  }

  lemma NewMarksVerified(s: Node, r: Record, endorsed: bool, at: int)
    requires Rooted(Insert(s.tail, r, endorsed, at), r.name)
    requires Insert(s.tail, r, endorsed, at)[r.name].parentOk == endorsed
    ensures var t := Insert(s.tail, r, endorsed, at);
      forall n :: n in NewMarks(s, r, endorsed, at) ==> n in t && n != r.name && t[n].parentOk
  {
    if endorsed {
      MarksVerified(Insert(s.tail, r, endorsed, at), r.name);
    }
  }

  lemma AddedOrigins(cfg: Config, s: Node, r: Record, endorsed: bool, at: int, s': Node)
    requires cfg.Valid() && Sound(cfg, s.tail, s.backend)
    requires Addable(s, r, endorsed) && Added(cfg, s, r, endorsed, at, s')
    ensures Origins(s, r, endorsed, s')
  {
    var t, marks, marked, pruned := Stages(cfg, s, r, endorsed, at);
    InsertRoots(s, r, endorsed, at);
    TailOrigins(s, r, endorsed, at, marked, marks, pruned, Evicted(cfg, pruned, s'.clock));
    NewMarksVerified(s, r, endorsed, at);
    BackendOrigins(cfg, s, r, endorsed, at, marked, marks);
  }

  lemma AddedNamed(s: Node, r: Record, endorsed: bool, s': Node)
    requires Named(s) && Addable(s, r, endorsed)
    requires Origins(s, r, endorsed, s') && Recorded(s, r, endorsed, s')
    ensures Named(s')
  {
  }

  lemma AddedRanked(s: Node, r: Record, endorsed: bool, s': Node)
    requires Ranked(s) && Linked(s.tail, s.backend) && Addable(s, r, endorsed)
    requires Origins(s, r, endorsed, s') && Recorded(s, r, endorsed, s')
    ensures Ranked(s')
  {
  }

  lemma AddedVouched(s: Node, r: Record, endorsed: bool, s': Node)
    requires Vouched(s) && Named(s) && Addable(s, r, endorsed)
    requires Origins(s, r, endorsed, s') && Recorded(s, r, endorsed, s')
    ensures Vouched(s')
  {
  }

  lemma AddedStacked(s: Node, r: Record, endorsed: bool, s': Node)
    requires Stacked(s) && Named(s) && Genuine(s, r)
    requires Recorded(s, r, endorsed, s')
    ensures Stacked(s')
  {
  }

  // ---- Witnesses and the confirmation log ----------------------------------------------------

  lemma WitnessStays(s: Node, s': Node, q: Producer, n: Name)
    requires Witness(s, q, n)
    requires Subgraph(s.known, s'.known) && s.verified <= s'.verified
    ensures Witness(s', q, n)
  {
    var w :| w in s.verified && w.producer == q && w != n && Reaches(s.known, w, n);
    ReachesSubgraph(s.known, s'.known, w, n);
  }

  /** The added record itself witnesses every mark it makes. */
  lemma MarkWitnessed(s: Node, r: Record, at: int, s': Node, n: Name)
    requires Named(s) && ParentsVerified(s.tail, r) && Recorded(s, r, true, s')
    requires n in Marks(Insert(s.tail, r, true, at), r.name)
    ensures Witness(s', r.name.producer, n)
  {
    var u := Unmarked(Insert(s.tail, r, true, at), r.name);
    ReachesSubgraph(u, s'.known, r.name, n);
    assert r.name in s'.verified;
  }

  /** Every endorser counted after marking has a witness. */
  lemma MarkedWitnessed(s: Node, r: Record, endorsed: bool, at: int, s': Node, n: Name, q: Producer)
    requires Named(s) && Witnessed(s) && Genuine(s, r) && ParentsVerified(s.tail, r)
    requires Recorded(s, r, endorsed, s')
    requires n in MarkedTail(s, r, endorsed, at) && q in MarkedTail(s, r, endorsed, at)[n].refSet
    ensures Witness(s', q, n)
  {
    var t := Insert(s.tail, r, endorsed, at);
    if q in t[n].refSet {
      WitnessStays(s, s', q, n);
    } else {
      MarkWitnessed(s, r, at, s', n);
    }
  }

  lemma AddedWitnessed(cfg: Config, s: Node, r: Record, endorsed: bool, at: int, marks: set<Name>,
                       marked: Tail, s': Node)
    requires Named(s) && Witnessed(s) && Genuine(s, r) && ParentsVerified(s.tail, r)
    requires Recorded(s, r, endorsed, s')
    requires marks == NewMarks(s, r, endorsed, at) && marked == MarkedTail(s, r, endorsed, at)
    requires Restricts(s'.tail, marked) && Confirms(cfg, s, marked, marks, s')
    ensures Witnessed(s')
  {
    forall n, q | n in s'.tail && q in s'.tail[n].refSet ensures Witness(s', q, n) {
      MarkedWitnessed(s, r, endorsed, at, s', n, q);
    }
    forall i, q | 0 <= i < |s'.log| && q in s'.log[i].endorsers
      ensures Witness(s', q, s'.log[i].record.name)
    {
      if i < |s.log| {
        WitnessStays(s, s', q, s.log[i].record.name);
      } else {
        assert s'.log[i] == s'.log[|s.log|..][i - |s.log|];
        MarkedWitnessed(s, r, endorsed, at, s', s'.log[i].record.name, q);
      }
    }
  }

  /** A record is confirmed in the one call in which its weight becomes confirmWeight. */
  lemma FiredAnew(cfg: Config, t: Tail, marked: Tail, marks: set<Name>, backend: map<Name, Record>)
    requires Weighed(cfg, t, backend) && Grows(t, marked, marks)
    ensures forall n :: n in Confirmed(cfg, marked, marks) ==> n !in backend
  {
  }

  lemma AddedLogged(cfg: Config, s: Node, marked: Tail, marks: set<Name>, s': Node)
    requires Logged(cfg, s) && Confirms(cfg, s, marked, marks, s')
    requires Modest(marked) && Interlocked(marked) && Agree(marked, s.backend)
    ensures Logged(cfg, s')
  {
  }

  lemma AddedLoggedOnce(cfg: Config, s: Node, marked: Tail, marks: set<Name>, s': Node)
    requires Logged(cfg, s) && LoggedOnce(s) && Confirms(cfg, s, marked, marks, s')
    requires forall n :: n in Confirmed(cfg, marked, marks) ==> n !in s.backend
    ensures LoggedOnce(s')
  {
    var added := s'.log[|s.log|..];
    assert s'.log == s.log + added;
    ConcatDistinct(s.log, added);
    forall n | n in s'.backend ensures exists i :: 0 <= i < |s'.log| && s'.log[i].record.name == n {
      if n in s.backend {
        ConcatNames(s.log, added, n);
      } else {
        assert exists i :: 0 <= i < |added| && added[i].record.name == n;
        ConcatNames(s.log, added, n);
      }
    }
  }

  lemma ConcatNames(a: seq<Confirmation>, b: seq<Confirmation>, n: Name)
    requires (exists i :: 0 <= i < |a| && a[i].record.name == n) || (exists i :: 0 <= i < |b| && b[i].record.name == n)
    ensures exists i :: 0 <= i < |a + b| && (a + b)[i].record.name == n
  {
    if i :| 0 <= i < |a| && a[i].record.name == n {
      assert (a + b)[i].record.name == n;
    } else {
      var i :| 0 <= i < |b| && b[i].record.name == n;
      assert (a + b)[|a| + i].record.name == n;
    }
  }

  lemma ConcatDistinct(a: seq<Confirmation>, b: seq<Confirmation>)
    requires forall i, j :: 0 <= i < j < |a| ==> a[i].record.name != a[j].record.name
    requires forall i, j :: 0 <= i < j < |b| ==> b[i].record.name != b[j].record.name
    requires forall i, j :: 0 <= i < |a| && 0 <= j < |b| ==> a[i].record.name != b[j].record.name
    ensures forall i, j :: 0 <= i < j < |a + b| ==> (a + b)[i].record.name != (a + b)[j].record.name
  {
  }

  lemma AddedHistory(cfg: Config, s: Node, r: Record, endorsed: bool, at: int, s': Node)
    requires cfg.Valid() && Inv(cfg, s)
    requires Addable(s, r, endorsed) && Added(cfg, s, r, endorsed, at, s')
    requires Recorded(s, r, endorsed, s')
    ensures Witnessed(s') && Logged(cfg, s') && LoggedOnce(s')
  {
    var t, marks, marked, pruned := Stages(cfg, s, r, endorsed, at);
    InsertWeighs(cfg, s, r, endorsed, at);
    FiredAnew(cfg, t, marked, marks, s.backend);
    AddedWitnessed(cfg, s, r, endorsed, at, marks, marked, s');
    AddedLogged(cfg, s, marked, marks, s');
    AddedLoggedOnce(cfg, s, marked, marks, s');
  }

  /** Adding a record keeps the whole invariant. */
  lemma AddedKeeps(cfg: Config, s: Node, r: Record, endorsed: bool, at: int, s': Node)
    requires cfg.Valid() && Inv(cfg, s)
    requires Addable(s, r, endorsed) && Added(cfg, s, r, endorsed, at, s')
    ensures Inv(cfg, s')
  {
    AddedOrigins(cfg, s, r, endorsed, at, s');
    AddedSound(cfg, s, r, endorsed, at, s');
    AddedNamed(s, r, endorsed, s');
    AddedStacked(s, r, endorsed, s');
    AddedRanked(s, r, endorsed, s');
    AddedVouched(s, r, endorsed, s');
    AddedHistory(cfg, s, r, endorsed, at, s');
  }

  // ---- Steps and runs ------------------------------------------------------------------------

  /** Whatever way a record comes in, its caller met the conditions for adding it. */
  lemma EnabledAddable(cfg: Config, s: Node, e: Event)
    requires Inv(cfg, s) && Enabled(cfg, s, e) && Adds(e)
    ensures Addable(s, e.r, Endorses(e))
  {
  }

  /** Nothing but the stack, the known packets and the clock moved. */
  ghost predicate Quiet(s: Node, s': Node) {
    && s' == s.(stack := s'.stack, known := s'.known, clock := s'.clock)
    && Subgraph(s.known, s'.known)
  }

  lemma QuietHistory(s: Node, s': Node)
    requires Quiet(s, s') && Vouched(s) && Witnessed(s)
    ensures Vouched(s') && Witnessed(s')
  {
    forall q, n | Witness(s, q, n) ensures Witness(s', q, n) {
      WitnessStays(s, s', q, n);
    }
  }

  lemma QuietKeeps(cfg: Config, s: Node, s': Node)
    requires Inv(cfg, s) && Quiet(s, s') && Named(s') && Stacked(s')
    ensures Inv(cfg, s')
  {
    QuietHistory(s, s');
  }

  lemma ReceiveQuiet(cfg: Config, s: Node, r: Record, at: int, s': Node)
    requires Named(s) && Stacked(s) && Step(cfg, s, Receive(r, at), s')
    ensures Quiet(s, s') && Named(s') && Stacked(s')
  {
  }

  lemma ForgetQuiet(cfg: Config, s: Node, i: nat, s': Node)
    requires Named(s) && Stacked(s) && Step(cfg, s, Forget(i), s')
    ensures Quiet(s, s') && Named(s') && Stacked(s')
  {
  }

  lemma StepKeeps(cfg: Config, s: Node, e: Event, s': Node)
    requires cfg.Valid() && Inv(cfg, s) && Step(cfg, s, e, s')
    ensures Inv(cfg, s')
  {
    match e
    case Receive(r, at) =>
      ReceiveQuiet(cfg, s, r, at, s');
      QuietKeeps(cfg, s, s');
    case Forget(i) =>
      ForgetQuiet(cfg, s, i, s');
      QuietKeeps(cfg, s, s');
    case _ =>
      EnabledAddable(cfg, s, e);
      AddedKeeps(cfg, s, e.r, Endorses(e), e.at, s');
  }

  /** Every state of every run satisfies the invariant. */
  lemma {:induction false} RunKeeps(cfg: Config, states: seq<Node>, i: nat)
    requires cfg.Valid() && Run(cfg, states) && i < |states|
    ensures Inv(cfg, states[i])
  {
    if i > 0 {
      RunKeeps(cfg, states, i - 1);
      assert Next(cfg, states[i - 1], states[i]);
      var e :| Step(cfg, states[i - 1], e, states[i]);
      StepKeeps(cfg, states[i - 1], e, states[i]);
    }
  }

  /** Each state of a run comes from a step out of a state satisfying the invariant. */
  lemma RunStep(cfg: Config, states: seq<Node>, i: nat) returns (e: Event)
    requires cfg.Valid() && Run(cfg, states) && 0 < i < |states|
    ensures Inv(cfg, states[i - 1]) && Step(cfg, states[i - 1], e, states[i])
  {
    RunKeeps(cfg, states, i - 1);
    assert Next(cfg, states[i - 1], states[i]);
    e :| Step(cfg, states[i - 1], e, states[i]);
  }
}
