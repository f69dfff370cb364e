/** What the invariant means for one peer: properties of every run. */
module LedgerTheorems {
  import opened Records
  import opened Dag
  import opened LedgerState
  import opened LedgerInvariant

  /** The part of the invariant most results need. */
  lemma RunSound(cfg: Config, states: seq<Node>, i: nat)
    requires cfg.Valid() && Run(cfg, states) && i < |states|
    ensures Sound(cfg, states[i].tail, states[i].backend)
  {
    RunKeeps(cfg, states, i);
  }

  lemma RunRanked(cfg: Config, states: seq<Node>, i: nat)
    requires cfg.Valid() && Run(cfg, states) && i < |states|
    ensures Ranked(states[i])
  {
    RunKeeps(cfg, states, i);
  }

  lemma RunAddable(cfg: Config, states: seq<Node>, i: nat, e: Event)
    requires cfg.Valid() && Run(cfg, states) && i < |states|
    requires Adds(e) && Enabled(cfg, states[i], e)
    ensures Addable(states[i], e.r, Endorses(e))
  {
    RunKeeps(cfg, states, i);
    EnabledAddable(cfg, states[i], e);
  }

  // ---- The confirmed ledger ------------------------------------------------------------------

  /** Confirming a record confirms every ancestor of it no later than in the same call. */
  lemma ConfirmedAncestors(cfg: Config, states: seq<Node>, i: nat, n: Name, a: Name)
    requires cfg.Valid() && Run(cfg, states) && i < |states|
    requires n in states[i].backend
    ensures forall p :: p in states[i].backend[n].pointers ==> p in states[i].backend
    ensures Reaches(states[i].known, n, a) ==> a in states[i].backend
  {
    RunKeeps(cfg, states, i);
    var s := states[i];
    if Reaches(s.known, n, a) {
      assert Closed(s.known, s.backend.Keys);
      ReachesInto(s.known, n, a, s.backend.Keys);
    }
  }

  /** A confirmed record is never hidden by an unverified tail entry. */
  lemma ConfirmedVisible(cfg: Config, states: seq<Node>, i: nat, n: Name)
    requires cfg.Valid() && Run(cfg, states) && i < |states|
    requires n in states[i].backend
    ensures Has(states[i].tail, states[i].backend, n)
  {
    RunSound(cfg, states, i);
    if n in states[i].tail {
      assert states[i].tail[n].refSet != {};
    }
  }

  /** The second state extends the first: nothing confirmed is dropped or changed. */
  ghost predicate Extends(s: Node, s': Node) {
    Subgraph(s.backend, s'.backend) && s.log <= s'.log
  }

  lemma StepExtends(cfg: Config, s: Node, e: Event, s': Node)
    requires Agree(s.tail, s.backend) && Step(cfg, s, e, s')
    ensures Extends(s, s')
  {
  }

  lemma ExtendsTransitive(a: Node, b: Node, c: Node)
    requires Extends(a, b) && Extends(b, c)
    ensures Extends(a, c)
  {
  }

  /** The ledger is append-only. */
  lemma {:induction false} LedgerAppendOnly(cfg: Config, states: seq<Node>, i: nat, j: nat)
    requires cfg.Valid() && Run(cfg, states) && i <= j < |states|
    ensures Extends(states[i], states[j])
    decreases j
  {
    if i < j {
      LedgerAppendOnly(cfg, states, i, j - 1);
      RunSound(cfg, states, j - 1);
      assert Next(cfg, states[j - 1], states[j]);
      var e :| Step(cfg, states[j - 1], e, states[j]);
      StepExtends(cfg, states[j - 1], e, states[j]);
      ExtendsTransitive(states[i], states[j - 1], states[j]);
    }
  }

  /** Confirmations correspond one to one to confirmed records, each with confirmWeight endorsers. */
  lemma ConfirmedOnce(cfg: Config, states: seq<Node>, i: nat, n: Name)
    requires cfg.Valid() && Run(cfg, states) && i < |states|
    ensures n in states[i].backend <==>
      exists j :: 0 <= j < |states[i].log| && states[i].log[j].record.name == n
    ensures forall j, k ::
      (0 <= j < |states[i].log| && 0 <= k < |states[i].log|
       && states[i].log[j].record.name == states[i].log[k].record.name) ==> j == k
    ensures forall j :: 0 <= j < |states[i].log| ==>
      |states[i].log[j].endorsers| == cfg.confirmWeight
      && states[i].log[j].record.name.producer !in states[i].log[j].endorsers
  {
    RunKeeps(cfg, states, i);
  }

  /** A record is confirmed exactly in the call that gives it its confirmWeight-th endorser. */
  lemma ConfirmedAtWeight(cfg: Config, s: Node, r: Record, endorsed: bool, at: int, n: Name)
    requires cfg.Valid() && Sound(cfg, s.tail, s.backend) && Addable(s, r, endorsed)
    requires n in s.tail
    ensures n in BackendAfter(cfg, s, r, endorsed, at) && n !in s.backend <==>
      n in NewMarks(s, r, endorsed, at) && |s.tail[n].refSet| == cfg.confirmWeight - 1
  {
    var t, marks, marked, pruned := Stages(cfg, s, r, endorsed, at);
    StoredAtWeight(cfg, s, r, endorsed, at, marked, marks, n);
  }

  lemma StoredAtWeight(cfg: Config, s: Node, r: Record, endorsed: bool, at: int, marked: Tail, marks: set<Name>,
                       n: Name)
    requires Weighed(cfg, s.tail, s.backend) && Grows(Insert(s.tail, r, endorsed, at), marked, marks)
    requires n in s.tail && n != r.name
    ensures n in Store(s.backend, marked, Confirmed(cfg, marked, marks)) && n !in s.backend
      <==> n in marks && |s.tail[n].refSet| == cfg.confirmWeight - 1
  {
  }

  /** Without a positive confirmWeight nothing is ever confirmed, whatever is endorsed. */
  lemma {:induction false} ZeroWeightConfirmsNothing(cfg: Config, states: seq<Node>, i: nat)
    requires cfg.confirmWeight == 0 && Run(cfg, states) && i < |states|
    ensures states[i].backend == map[]
  {
    if i > 0 {
      ZeroWeightConfirmsNothing(cfg, states, i - 1);
      var s, s' := states[i - 1], states[i];
      assert Next(cfg, s, s');
      var e :| Step(cfg, s, e, s');
      if Adds(e) {
        var endorsed := Endorses(e);
        var marks := NewMarks(s, e.r, endorsed, e.at);
        var marked := MarkedTail(s, e.r, endorsed, e.at);
        forall n | n in marks && n in marked ensures |marked[n].refSet| > 0 {
          assert e.r.name.producer in marked[n].refSet;
        }
        assert Confirmed(cfg, marked, marks) == {};
      }
    }
  }

  // ---- What leaves the tail ------------------------------------------------------------------

  /**
   A record leaves the tail either confirmed, with weight RemoveWeight or more, or unconfirmed,
   as a descendant of an expired unconfirmed record; never both.
   */
  lemma Departures(cfg: Config, s: Node, r: Record, endorsed: bool, at: int, now: int, n: Name)
    requires cfg.Valid() && Sound(cfg, s.tail, s.backend) && Addable(s, r, endorsed)
    requires n in s.tail
    ensures var marked := MarkedTail(s, r, endorsed, at);
      n !in TailAfter(cfg, s, r, endorsed, at, now) ==>
        if n in BackendAfter(cfg, s, r, endorsed, at) then |marked[n].refSet| >= cfg.RemoveWeight()
        else |marked[n].refSet| < cfg.confirmWeight && n in Descendants(marked, Expired(cfg, marked, now))
  {
    if n !in TailAfter(cfg, s, r, endorsed, at, now) {
      var t, marks, marked, pruned := Stages(cfg, s, r, endorsed, at);
      InsertWeighs(cfg, s, r, endorsed, at);
      PruneWeighs(cfg, t, marked, marks, s.backend);
      if n in pruned {
        EvictedFrom(cfg, marked, pruned, now, n);
      } else {
        RemovalConfirmed(cfg, marked, pruned, BackendAfter(cfg, s, r, endorsed, at), n);
      }
    }
  }

  lemma RemovalConfirmed(cfg: Config, marked: Tail, pruned: Tail, kept: map<Name, Record>, n: Name)
    requires Settled(cfg, marked, pruned, kept) && n in marked && n !in pruned
    ensures n in kept && |marked[n].refSet| >= cfg.RemoveWeight()
  {
  }

  lemma EvictedFrom(cfg: Config, marked: Tail, pruned: Tail, now: int, n: Name)
    requires Restricts(pruned, marked) && Interlocked(marked) && Endorsed(marked)
    requires n in Evicted(cfg, pruned, now)
    ensures |marked[n].refSet| < cfg.confirmWeight
    ensures n in Descendants(marked, Expired(cfg, marked, now))
  {
    RestrictEndorses(pruned, marked);
    EvictedUnconfirmed(cfg, pruned, now);
    EvictedLeads(cfg, marked, pruned, now, n);
  }

  lemma EvictedLeads(cfg: Config, marked: Tail, pruned: Tail, now: int, n: Name)
    requires Restricts(pruned, marked) && n in Evicted(cfg, pruned, now)
    ensures n in Descendants(marked, Expired(cfg, marked, now))
  {
    var x :| x in Expired(cfg, pruned, now) && Reaches(Held(pruned), n, x);
    ReachesSubgraph(Held(pruned), Held(marked), n, x);
  }

  /** Eviction is the least set that holds the expired records and whatever points into it. */
  lemma EvictedLeast(cfg: Config, t: Tail, now: int, gone: set<Name>)
    requires Expired(cfg, t, now) <= gone
    requires forall n, p :: n in t && p in t && p in t[n].record.pointers && p in gone ==> n in gone
    ensures Evicted(cfg, t, now) <= gone
  {
    forall n | n in Evicted(cfg, t, now) ensures n in gone {
      var x :| x in Expired(cfg, t, now) && Reaches(Held(t), n, x);
      if n !in gone {
        var kept := set y | y in t && y !in gone;
        assert Closed(Held(t), kept);
        ReachesInto(Held(t), n, x, kept);
      }
    }
  }

  /** After eviction nothing expired is left unconfirmed and nothing points to what was evicted. */
  lemma EvictionComplete(cfg: Config, t: Tail, now: int)
    ensures var gone := Evicted(cfg, t, now);
      && Expired(cfg, t, now) <= gone <= t.Keys
      && Expired(cfg, t - gone, now) == {}
      && forall n, p :: n in t - gone && p in t[n].record.pointers ==> p !in gone
  {
    var gone := Evicted(cfg, t, now);
    forall x | x in Expired(cfg, t, now) ensures x in gone {
      ReachesSelf(Held(t), x);
    }
    forall n, p | n in t - gone && p in t[n].record.pointers ensures p !in gone {
      if p in gone {
        EvictedDownward(t, Expired(cfg, t, now), n, p);
      }
    }
  }

  // ---- The shape of the tail -----------------------------------------------------------------

  /** The tail is a convex slice of everything this peer knows. */
  lemma TailConvex(cfg: Config, states: seq<Node>, i: nat, a: Name, x: Name, b: Name)
    requires cfg.Valid() && Run(cfg, states) && i < |states|
    requires a in states[i].tail && b in states[i].tail
    requires Reaches(states[i].known, a, x) && Reaches(states[i].known, x, b)
    ensures x in states[i].tail
  {
    var s := states[i];
    var below := set n | n in s.backend && n !in s.tail;
    SliceClosed(cfg, states, i);
    ReachesInto(s.known, a, x, s.tail.Keys + below);
    if x in below {
      ReachesInto(s.known, x, b, below);
    }
  }

  /** Pointers lead from the tail into tail or ledger, and from what left the tail never back. */
  lemma SliceClosed(cfg: Config, states: seq<Node>, i: nat)
    requires cfg.Valid() && Run(cfg, states) && i < |states|
    ensures var s := states[i];
      var below := set n | n in s.backend && n !in s.tail;
      Closed(s.known, below) && Closed(s.known, s.tail.Keys + below)
  {
    RunKeeps(cfg, states, i);
  }

  /** No tail record reaches a record that points to it. */
  lemma TailAcyclic(cfg: Config, states: seq<Node>, i: nat, a: Name, b: Name)
    requires cfg.Valid() && Run(cfg, states) && i < |states|
    requires Edge(Held(states[i].tail), a, b)
    ensures !Reaches(Held(states[i].tail), b, a)
  {
    RunRanked(cfg, states, i);
    var s := states[i];
    if Reaches(Held(s.tail), b, a) {
      var earlier := set n | n in s.tail && s.rank[n] <= s.rank[b];
      assert Closed(Held(s.tail), earlier);
      ReachesInto(Held(s.tail), b, a, earlier);
    }
  }

  /**
   The two endorsement flags always agree, and every verified tail record and all its tail
   predecessors can be looked up, so the search for endorsed ancestors finds every record it
   dereferences.
   */
  lemma LookupsSucceed(cfg: Config, states: seq<Node>, i: nat, n: Name)
    requires cfg.Valid() && Run(cfg, states) && i < |states|
    requires n in states[i].tail
    ensures var s := states[i];
      && s.tail[n].parentOk == s.tail[n].recordOk
      && (s.tail[n].recordOk ==> Lookup(s.tail, s.backend, n) == Some(s.tail[n].record))
      && forall p :: p in s.tail[n].record.pointers && p in s.tail ==>
           Lookup(s.tail, s.backend, p) == Some(s.tail[p].record)
  {
    RunSound(cfg, states, i);
  }

  /**
   What getRecord answers for any name: the packet obtained under it if it is verified in the tail or
   confirmed, and nothing otherwise. So every confirmed record is found, and no unverified one.
   */
  lemma LookupFinds(cfg: Config, states: seq<Node>, i: nat, n: Name)
    requires cfg.Valid() && Run(cfg, states) && i < |states|
    ensures var s := states[i];
      var found := Lookup(s.tail, s.backend, n);
      && (found.Some? <==> (n in s.tail && s.tail[n].parentOk) || n in s.backend)
      && (found.Some? <==> Has(s.tail, s.backend, n))
      && (found.Some? ==> n in s.known && found.value == s.known[n])
  {
    RunKeeps(cfg, states, i);
    if n in states[i].backend {
      ConfirmedVisible(cfg, states, i, n);
    }
  }

  /** Whatever gets confirmed was flagged verified before, so the flag-update loop never has work. */
  lemma ConfirmedWereVerified(cfg: Config, s: Node, r: Record, endorsed: bool, at: int)
    requires cfg.Valid() && Sound(cfg, s.tail, s.backend) && Addable(s, r, endorsed)
    ensures var marked := MarkedTail(s, r, endorsed, at);
      forall n :: n in Confirmed(cfg, marked, NewMarks(s, r, endorsed, at)) ==> marked[n].parentOk && marked[n].recordOk
  {
    var t, marks, marked, pruned := Stages(cfg, s, r, endorsed, at);
    forall n | n in Confirmed(cfg, marked, marks) ensures marked[n].parentOk {
      assert marked[n].refSet != {};
    }
  }

  // ---- Endorsement ---------------------------------------------------------------------------

  /** Whoever wrote a verified record endorses everything the record leads to, or wrote it. */
  lemma EndorsementComplete(cfg: Config, states: seq<Node>, i: nat, r: Name, p: Name)
    requires cfg.Valid() && Run(cfg, states) && i < |states|
    requires r in states[i].tail && states[i].tail[r].parentOk
    requires Reaches(Held(states[i].tail), r, p)
    ensures p in states[i].tail
    ensures r.producer == p.producer || r.producer in states[i].tail[p].refSet
  {
    RunSound(cfg, states, i);
    var t := states[i].tail;
    var vouched := set n | n in t && t[n].parentOk && (r.producer == n.producer || r.producer in t[n].refSet);
    assert Closed(Held(t), vouched);
    ReachesInto(Held(t), r, p, vouched);
  }

  /** Every counted endorser differs from the producer and wrote a verified record leading here. */
  lemma EndorsementSound(cfg: Config, states: seq<Node>, i: nat, p: Name, q: Producer)
    requires cfg.Valid() && Run(cfg, states) && i < |states|
    requires p in states[i].tail && q in states[i].tail[p].refSet
    ensures q != p.producer && Witness(states[i], q, p)
  {
    RunKeeps(cfg, states, i);
  }

  /** One addition gives a surviving record at most one endorser, the added record's producer. */
  lemma WeightGrowsByOne(cfg: Config, s: Node, r: Record, endorsed: bool, at: int, now: int, n: Name)
    requires cfg.Valid() && Sound(cfg, s.tail, s.backend) && Addable(s, r, endorsed)
    requires n in s.tail && n in TailAfter(cfg, s, r, endorsed, at, now)
    ensures var refSet := TailAfter(cfg, s, r, endorsed, at, now)[n].refSet;
      refSet == s.tail[n].refSet
      || (r.name.producer !in s.tail[n].refSet && refSet == s.tail[n].refSet + {r.name.producer})
  {
    var t, marks, marked, pruned := Stages(cfg, s, r, endorsed, at);
    InsertRoots(s, r, endorsed, at);
    NewMarksUnmarked(s, r, endorsed, at);
    SurvivorMarked(s, r, endorsed, at, marks, pruned, Evicted(cfg, pruned, now), n);
  }

  lemma NewMarksUnmarked(s: Node, r: Record, endorsed: bool, at: int)
    requires Rooted(Insert(s.tail, r, endorsed, at), r.name)
    requires Insert(s.tail, r, endorsed, at)[r.name].parentOk == endorsed
    ensures forall n :: n in NewMarks(s, r, endorsed, at) ==>
      n in s.tail && n != r.name && r.name.producer !in s.tail[n].refSet
  {
    if endorsed {
      MarksVerified(Insert(s.tail, r, endorsed, at), r.name);
    }
  }

  lemma SurvivorMarked(s: Node, r: Record, endorsed: bool, at: int, marks: set<Name>,
                       pruned: Tail, gone: set<Name>, n: Name)
    requires Restricts(pruned, Mark(Insert(s.tail, r, endorsed, at), marks, r.name.producer))
    requires n in s.tail && n != r.name && n in pruned - gone
    requires n in marks ==> r.name.producer !in s.tail[n].refSet
    ensures var refSet := (pruned - gone)[n].refSet;
      refSet == s.tail[n].refSet
      || (r.name.producer !in s.tail[n].refSet && refSet == s.tail[n].refSet + {r.name.producer})
  {
  }

  /**
   Stopping the search at records already endorsed loses nothing: afterwards the producer endorses
   exactly what it endorsed before and what is reachable from its record around its own records.
   */
  lemma PruningIsExact(s: Node, r: Record, at: int)
    requires Linked(s.tail, s.backend) && Flagged(s.tail) && Interlocked(s.tail) && Endorsed(s.tail)
    requires Addable(s, r, true)
    ensures var t := Insert(s.tail, r, true, at);
      forall n :: n in t && n != r.name ==>
        (r.name.producer in t[n].refSet || n in Marks(t, r.name)
         <==> r.name.producer in t[n].refSet || Reaches(Foreign(t, r.name), r.name, n))
  {
    var t := Insert(s.tail, r, true, at);
    var q, root := r.name.producer, r.name;
    InsertRoots(s, r, true, at);
    forall n | n in t && n != root
      ensures q in t[n].refSet || n in Marks(t, root) <==> q in t[n].refSet || Reaches(Foreign(t, root), root, n)
    {
      if n in Marks(t, root) {
        ReachesSubgraph(Unmarked(t, root), Foreign(t, root), root, n);
      }
      if Reaches(Foreign(t, root), root, n) {
        ForeignMarked(t, root, n);
      }
    }
  }

  lemma ForeignMarked(t: Tail, root: Name, n: Name)
    requires Rooted(t, root)
    requires Reaches(Foreign(t, root), root, n)
    ensures n in t && (n == root || root.producer in t[n].refSet || n in Marks(t, root))
  {
    var f := Foreign(t, root);
    var done := set x | x in f && (x == root || root.producer in t[x].refSet || x in Marks(t, root));
    forall x, y | x in done && Edge(f, x, y) ensures y in done {
      if y != root && (x == root || x in Marks(t, root)) {
        MarkPasses(t, root, x, y);
      }
    }
    ReachesInto(f, root, n, done);
  }

  // ---- Weights and the contribution policy ---------------------------------------------------

  /** Between calls no tail record is as heavy as RemoveWeight. */
  lemma WeightBounded(cfg: Config, states: seq<Node>, i: nat, n: Name)
    requires cfg.Valid() && Run(cfg, states) && i < |states|
    requires n in states[i].tail
    ensures |states[i].tail[n].refSet| < cfg.RemoveWeight()
  {
    RunSound(cfg, states, i);
  }

  /** With confirmWeight at most contributionWeight + 1 the policy only rejects absent predecessors. */
  lemma ContributionIsPresence(cfg: Config, states: seq<Node>, i: nat, r: Record)
    requires cfg.Valid() && Run(cfg, states) && i < |states|
    requires cfg.confirmWeight <= cfg.contributionWeight + 1
    ensures ContributionOk(cfg, states[i].tail, r) <==> forall p :: p in r.pointers ==> p in states[i].tail
  {
    forall p | p in states[i].tail ensures |states[i].tail[p].refSet| <= cfg.contributionWeight {
      WeightBounded(cfg, states, i, p);
    }
  }

  /** Records a peer may append to are foreign, light enough for the contribution policy and found. */
  lemma AppendableAdmissible(cfg: Config, s: Node, r: Record)
    requires cfg.Valid() && r.name.producer == cfg.self
    requires forall p :: p in r.pointers ==> Appendable(cfg, s.tail, p)
    ensures Interlock(r) && ContributionOk(cfg, s.tail, r)
    ensures forall p :: p in r.pointers ==> Has(s.tail, s.backend, p)
  {
  }

  // ---- What a sync Interest announces --------------------------------------------------------

  /** The announced records: verified and not endorsed by anyone. */
  predicate Tip(t: Tail, n: Name) {
    n in t && t[n].parentOk && t[n].refSet == {}
  }

  ghost predicate CoveredAt(t: Tail, n: Name) {
    exists tip :: Tip(t, tip) && Reaches(Held(t), tip, n)
  }

  /** Every verified tail record is an ancestor of an announced record or announced itself. */
  ghost predicate Covered(t: Tail) {
    forall n {:trigger CoveredAt(t, n)} :: n in t && t[n].parentOk ==> CoveredAt(t, n)
  }

  ghost predicate SupportedAt(t: Tail, n: Name) {
    exists child :: child in t && t[child].parentOk && Edge(Held(t), child, n)
  }

  /** Every endorsed tail record still has a verified child in the tail. */
  ghost predicate Supported(t: Tail) {
    forall n {:trigger SupportedAt(t, n)} :: n in t && t[n].refSet != {} ==> SupportedAt(t, n)
  }

  lemma {:induction false} TipAbove(s: Node, n: Name) returns (tip: Name)
    requires Ranked(s) && Supported(s.tail)
    requires n in s.tail && s.tail[n].parentOk
    ensures Tip(s.tail, tip) && Reaches(Held(s.tail), tip, n)
    decreases s.births - s.rank[n]
  {
    if s.tail[n].refSet == {} {
      ReachesSelf(Held(s.tail), n);
      tip := n;
    } else {
      assert SupportedAt(s.tail, n);
      var child :| child in s.tail && s.tail[child].parentOk && Edge(Held(s.tail), child, n);
      tip := TipAbove(s, child);
      ReachesStep(Held(s.tail), tip, child, n);
    }
  }

  lemma {:induction false} LastChild(t: Tail, path: seq<Name>) returns (child: Name)
    requires Flagged(t) && Path(Held(t), path) && |path| > 1 && t[path[0]].parentOk
    ensures child in t && t[child].parentOk && Edge(Held(t), child, path[|path| - 1])
    decreases |path|
  {
    if |path| == 2 {
      child := path[0];
    } else {
      child := LastChild(t, path[1..]);
    }
  }

  lemma SupportCovers(s: Node)
    requires Ranked(s) && Supported(s.tail)
    ensures Covered(s.tail)
  {
    forall n | n in s.tail && s.tail[n].parentOk ensures CoveredAt(s.tail, n) {
      var tip := TipAbove(s, n);
    }
  }

  lemma ChildOnTheWay(t: Tail, tip: Name, n: Name) returns (child: Name)
    requires Flagged(t) && Tip(t, tip) && Reaches(Held(t), tip, n) && tip != n
    ensures child in t && t[child].parentOk && Edge(Held(t), child, n)
  {
    var path :| Path(Held(t), path) && path[0] == tip && path[|path| - 1] == n;
    child := LastChild(t, path);
  }

  lemma CoverSupports(t: Tail)
    requires Flagged(t) && Modest(t) && Covered(t)
    ensures Supported(t)
  {
    forall n | n in t && t[n].refSet != {} ensures SupportedAt(t, n) {
      assert CoveredAt(t, n);
      var tip :| Tip(t, tip) && Reaches(Held(t), tip, n);
      var child := ChildOnTheWay(t, tip, n);
    }
  }

  /** The announcement covers the tail exactly when every endorsed record kept a verified child. */
  lemma CoveredIffSupported(cfg: Config, states: seq<Node>, i: nat)
    requires cfg.Valid() && Run(cfg, states) && i < |states|
    ensures Covered(states[i].tail) <==> Supported(states[i].tail)
  {
    RunSound(cfg, states, i);
    RunRanked(cfg, states, i);
    if Supported(states[i].tail) {
      SupportCovers(states[i]);
    }
    if Covered(states[i].tail) {
      CoverSupports(states[i].tail);
    }
  }

  /** Only pruning took records from the tail in the step from s to s'. */
  ghost predicate EvictsNothing(cfg: Config, s: Node, e: Event, s': Node) {
    Adds(e) ==>
      s'.tail == Prune(cfg, MarkedTail(s, e.r, Endorses(e), e.at), NewMarks(s, e.r, Endorses(e), e.at))
  }

  /** A mark comes with the record that passed it on. */
  lemma MarkSupported(t: Tail, root: Name, n: Name)
    requires Rooted(t, root) && t[root].parentOk && n in Marks(t, root)
    ensures SupportedAt(t, n)
  {
    var u := Unmarked(t, root);
    ReachesWithin(u, root, n);
    var reached := set x | x in u && t[x].parentOk && (x == root || SupportedAt(t, x));
    forall x, y | x in reached && Edge(u, x, y) ensures y in reached {
      assert Edge(Held(t), x, y);
    }
    ReachesInto(u, root, n, reached);
  }

  /** Pruning drops a child only together with what it points to. */
  lemma SupportSettles(cfg: Config, marked: Tail, pruned: Tail, kept: map<Name, Record>)
    requires Settled(cfg, marked, pruned, kept) && Supported(marked)
    requires Interlocked(marked) && Endorsed(marked)
    ensures Supported(pruned)
  {
    forall n | n in pruned && pruned[n].refSet != {} ensures SupportedAt(pruned, n) {
      assert SupportedAt(marked, n);
      var child :| child in marked && marked[child].parentOk && Edge(Held(marked), child, n);
      WeightDescends(marked, child, n);
      assert Edge(Held(pruned), child, n);
    }
  }

  lemma SupportCarries(t: Tail, u: Tail, n: Name)
    requires SupportedAt(t, n)
    requires forall x :: x in t ==> x in u && u[x].record == t[x].record && u[x].parentOk == t[x].parentOk
    ensures SupportedAt(u, n)
  {
  }

  lemma SupportInserts(s: Node, r: Record, endorsed: bool, at: int)
    requires Supported(s.tail) && r.name !in s.tail
    ensures Supported(Insert(s.tail, r, endorsed, at))
  {
    var t := Insert(s.tail, r, endorsed, at);
    forall n | n in t && t[n].refSet != {} ensures SupportedAt(t, n) {
      assert SupportedAt(s.tail, n);
      SupportCarries(s.tail, t, n);
    }
  }

  lemma SupportMarks(t: Tail, root: Name, marks: set<Name>)
    requires Rooted(t, root) && Supported(t)
    requires marks == if t[root].parentOk then Marks(t, root) else {}
    ensures Supported(Mark(t, marks, root.producer))
  {
    var marked := Mark(t, marks, root.producer);
    forall n | n in marked && marked[n].refSet != {} ensures SupportedAt(marked, n) {
      if n in marks {
        MarkSupported(t, root, n);
      }
      assert SupportedAt(t, n);
      SupportCarries(t, marked, n);
    }
  }

  /** An addition that evicts nothing leaves every endorsed record a verified child. */
  lemma SupportStays(cfg: Config, s: Node, r: Record, endorsed: bool, at: int, s': Node)
    requires cfg.Valid() && Sound(cfg, s.tail, s.backend)
    requires Addable(s, r, endorsed) && Added(cfg, s, r, endorsed, at, s')
    requires Supported(s.tail)
    requires s'.tail == Prune(cfg, MarkedTail(s, r, endorsed, at), NewMarks(s, r, endorsed, at))
    ensures Supported(s'.tail)
  {
    var t, marks, marked, pruned := Stages(cfg, s, r, endorsed, at);
    InsertRoots(s, r, endorsed, at);
    SupportInserts(s, r, endorsed, at);
    SupportMarks(t, r.name, marks);
    InsertWeighs(cfg, s, r, endorsed, at);
    PruneWeighs(cfg, t, marked, marks, s.backend);
    SupportSettles(cfg, marked, pruned, s'.backend);
  }

  lemma SupportSteps(cfg: Config, s: Node, e: Event, s': Node)
    requires cfg.Valid() && Inv(cfg, s) && Step(cfg, s, e, s')
    requires EvictsNothing(cfg, s, e, s') && Supported(s.tail)
    ensures Supported(s'.tail)
  {
    if Adds(e) {
      EnabledAddable(cfg, s, e);
      SupportStays(cfg, s, e.r, Endorses(e), e.at, s');
    }
  }

  /** Until something is evicted, the announced records cover the whole verified tail. */
  lemma {:induction false} SyncCovers(cfg: Config, states: seq<Node>, events: seq<Event>, i: nat)
    requires cfg.Valid() && RunBy(cfg, states, events) && i < |states|
    requires forall j :: 0 < j < |states| ==> EvictsNothing(cfg, states[j - 1], events[j], states[j])
    ensures Supported(states[i].tail) && Covered(states[i].tail)
  {
    if i > 0 {
      SyncCovers(cfg, states, events, i - 1);
      RunKeeps(cfg, states, i - 1);
      SupportSteps(cfg, states[i - 1], events[i], states[i]);
    }
    RunRanked(cfg, states, i);
    SupportCovers(states[i]);
  }
}
