/**
 Who endorses a tail record: exactly the other producers whose verified records lead to it; and what
 is confirmed and what has left the tail on that account.
 */
module LedgerEndorsers {
  import opened Records
  import opened Dag
  import opened LedgerState
  import opened LedgerInvariant
  import opened LedgerTheorems

  /** Every record ever verified is still found, in the tail or in the backend. */
  ghost predicate Retained(s: Node) {
    forall n :: n in s.verified ==> Has(s.tail, s.backend, n)
  }

  /** What q wrote or endorses among the verified tail records. */
  function CreditedTo(t: Tail, q: Producer): set<Name> {
    set n | n in t && t[n].parentOk && (n.producer == q || q in t[n].refSet)
  }

  function Below(t: Tail, backend: map<Name, Record>): set<Name> {
    set n | n in backend && n !in t
  }

  lemma CreditCloses(t: Tail, backend: map<Name, Record>, known: Graph, q: Producer, a: Name, b: Name)
    requires Linked(t, backend) && Anchored(t, backend) && Flagged(t) && Credited(t) && Flowing(t)
    requires a in known && b in known[a].pointers
    requires (a in t ==> t[a].record == known[a]) && (a in backend ==> backend[a] == known[a])
    requires a in CreditedTo(t, q) || a in Below(t, backend)
    ensures b in CreditedTo(t, q) || b in Below(t, backend)
  {
  }

  lemma ReachedCloses(cfg: Config, s: Node, q: Producer)
    requires Named(s) && Sound(cfg, s.tail, s.backend)
    ensures Closed(s.known, CreditedTo(s.tail, q) + Below(s.tail, s.backend))
  {
    var reached := CreditedTo(s.tail, q) + Below(s.tail, s.backend);
    forall a, b | a in reached && Edge(s.known, a, b) ensures b in reached {
      CreditCloses(s.tail, s.backend, s.known, q, a, b);
    }
  }

  /** While nothing is lost, a producer whose verified record leads to a tail record endorses it. */
  lemma WitnessEndorses(cfg: Config, s: Node, q: Producer, p: Name)
    requires Named(s) && Sound(cfg, s.tail, s.backend) && Retained(s)
    requires p in s.tail && q != p.producer && Witness(s, q, p)
    ensures q in s.tail[p].refSet
  {
    var w :| w in s.verified && w.producer == q && w != p && Reaches(s.known, w, p);
    ReachedCloses(cfg, s, q);
    assert Has(s.tail, s.backend, w);
    ReachesInto(s.known, w, p, CreditedTo(s.tail, q) + Below(s.tail, s.backend));
  }

  /** Then the endorsers are exactly those producers. */
  lemma RetainedExact(cfg: Config, s: Node, p: Name, q: Producer)
    requires Inv(cfg, s) && Retained(s) && p in s.tail
    ensures q in s.tail[p].refSet <==> q != p.producer && Witness(s, q, p)
  {
    if q != p.producer && Witness(s, q, p) {
      WitnessEndorses(cfg, s, q, p);
    }
  }

  // ---- Without eviction nothing verified is lost -----------------------------------------------

  lemma InsertRetains(s: Node, r: Record, endorsed: bool, at: int, s': Node, n: Name)
    requires Retained(s) && Recorded(s, r, endorsed, s') && !Seen(s.tail, s.backend, r.name)
    requires n in s'.verified
    ensures Has(Insert(s.tail, r, endorsed, at), s.backend, n)
  {
  }

  lemma SettledRetains(cfg: Config, t: Tail, backend: map<Name, Record>, marked: Tail, pruned: Tail,
                       kept: map<Name, Record>, n: Name)
    requires Settled(cfg, marked, pruned, kept) && backend.Keys <= kept.Keys
    requires t.Keys == marked.Keys && (forall x :: x in t ==> t[x].parentOk == marked[x].parentOk)
    requires Has(t, backend, n)
    ensures Has(pruned, kept, n)
  {
    if n in marked && n !in pruned {
      RemovalConfirmed(cfg, marked, pruned, kept, n);
    }
  }

  lemma AdditionSettles(cfg: Config, s: Node, r: Record, endorsed: bool, at: int)
    requires cfg.Valid() && Sound(cfg, s.tail, s.backend) && Addable(s, r, endorsed)
    ensures var t, marked := Insert(s.tail, r, endorsed, at), MarkedTail(s, r, endorsed, at);
      var marks := NewMarks(s, r, endorsed, at);
      && Settled(cfg, marked, Prune(cfg, marked, marks), BackendAfter(cfg, s, r, endorsed, at))
      && s.backend.Keys <= BackendAfter(cfg, s, r, endorsed, at).Keys
      && t.Keys == marked.Keys && (forall x :: x in t ==> t[x].parentOk == marked[x].parentOk)
  {
    var t, marks, marked, pruned := Stages(cfg, s, r, endorsed, at);
    InsertWeighs(cfg, s, r, endorsed, at);
    PruneWeighs(cfg, t, marked, marks, s.backend);
  }

  lemma AddedRetains(cfg: Config, s: Node, r: Record, endorsed: bool, at: int, s': Node)
    requires cfg.Valid() && Sound(cfg, s.tail, s.backend) && Retained(s)
    requires Addable(s, r, endorsed) && Recorded(s, r, endorsed, s')
    requires s'.tail == Prune(cfg, MarkedTail(s, r, endorsed, at), NewMarks(s, r, endorsed, at))
    requires s'.backend == BackendAfter(cfg, s, r, endorsed, at)
    ensures Retained(s')
  {
    AdditionSettles(cfg, s, r, endorsed, at);
    var t, marked := Insert(s.tail, r, endorsed, at), MarkedTail(s, r, endorsed, at);
    forall n | n in s'.verified ensures Has(s'.tail, s'.backend, n) {
      InsertRetains(s, r, endorsed, at, s', n);
      SettledRetains(cfg, t, s.backend, marked, s'.tail, s'.backend, n);
    }
  }

  lemma StepRetains(cfg: Config, s: Node, e: Event, s': Node)
    requires cfg.Valid() && Inv(cfg, s) && Step(cfg, s, e, s')
    requires EvictsNothing(cfg, s, e, s') && Retained(s)
    ensures Retained(s')
  {
    if Adds(e) {
      EnabledAddable(cfg, s, e);
      AddedRetains(cfg, s, e.r, Endorses(e), e.at, s');
    }
  }

  lemma {:induction false} RunRetains(cfg: Config, states: seq<Node>, events: seq<Event>, i: nat)
    requires cfg.Valid() && RunBy(cfg, states, events) && i < |states|
    requires forall j :: 0 < j < |states| ==> EvictsNothing(cfg, states[j - 1], events[j], states[j])
    ensures Retained(states[i])
  {
    if i > 0 {
      RunRetains(cfg, states, events, i - 1);
      RunKeeps(cfg, states, i - 1);
      StepRetains(cfg, states[i - 1], events[i], states[i]);
    }
  }

  /**
   In every run without eviction the endorsers of a tail record are exactly the producers other than
   its own that wrote a verified record leading to it, in whatever order the records came.
   */
  lemma EndorsersExact(cfg: Config, states: seq<Node>, events: seq<Event>, i: nat, p: Name, q: Producer)
    requires cfg.Valid() && RunBy(cfg, states, events) && i < |states| && p in states[i].tail
    requires forall j :: 0 < j < |states| ==> EvictsNothing(cfg, states[j - 1], events[j], states[j])
    ensures q in states[i].tail[p].refSet <==> q != p.producer && Witness(states[i], q, p)
  {
    RunRetains(cfg, states, events, i);
    RunKeeps(cfg, states, i);
    RetainedExact(cfg, states[i], p, q);
  }

  // ---- What is confirmed and what has left the tail ----------------------------------------------

  /** The producers other than its own that wrote verified records leading to a record. */
  ghost function Endorsers(s: Node, n: Name): set<Producer> {
    set w | w in s.verified && w.producer != n.producer && Reaches(s.known, w, n) :: w.producer
  }

  lemma EndorserIff(s: Node, n: Name, q: Producer)
    ensures q in Endorsers(s, n) <==> q != n.producer && Witness(s, q, n)
  {
  }

  lemma EndorsersGrow(s: Node, s': Node, n: Name)
    requires Subgraph(s.known, s'.known) && s.verified <= s'.verified
    ensures |Endorsers(s, n)| <= |Endorsers(s', n)|
  {
    forall q | q in Endorsers(s, n) ensures q in Endorsers(s', n) {
      var w :| w in s.verified && w.producer != n.producer && Reaches(s.known, w, n) && w.producer == q;
      ReachesSubgraph(s.known, s'.known, w, n);
    }
    SubsetSize(Endorsers(s, n), Endorsers(s', n));
  }

  /** A confirmed record that is gone from the tail has as many endorsers as that takes. */
  ghost predicate Heavy(cfg: Config, s: Node) {
    forall n :: n in s.backend && n !in s.tail ==> |Endorsers(s, n)| >= cfg.RemoveWeight()
  }

  /** The endorsers counted after marking are endorsers by the verified records afterwards. */
  lemma MarkedEndorsers(s: Node, r: Record, endorsed: bool, at: int, s': Node, n: Name)
    requires Named(s) && Witnessed(s) && Genuine(s, r) && ParentsVerified(s.tail, r)
    requires Recorded(s, r, endorsed, s')
    requires var marked := MarkedTail(s, r, endorsed, at); n in marked && n.producer !in marked[n].refSet
    ensures |MarkedTail(s, r, endorsed, at)[n].refSet| <= |Endorsers(s', n)|
  {
    var counted := MarkedTail(s, r, endorsed, at)[n].refSet;
    forall q | q in counted ensures q in Endorsers(s', n) {
      MarkedWitnessed(s, r, endorsed, at, s', n, q);
      EndorserIff(s', n, q);
    }
    SubsetSize(counted, Endorsers(s', n));
  }

  lemma DepartedHeavy(cfg: Config, s: Node, r: Record, endorsed: bool, at: int, s': Node, n: Name)
    requires cfg.Valid() && Named(s) && Witnessed(s) && Sound(cfg, s.tail, s.backend)
    requires Addable(s, r, endorsed) && Recorded(s, r, endorsed, s')
    requires s'.tail == TailAfter(cfg, s, r, endorsed, at, s'.clock)
    requires n in s.tail && n !in s'.tail && n in BackendAfter(cfg, s, r, endorsed, at)
    ensures |Endorsers(s', n)| >= cfg.RemoveWeight()
  {
    Departures(cfg, s, r, endorsed, at, s'.clock, n);
    var t, marks, marked, pruned := Stages(cfg, s, r, endorsed, at);
    MarkedEndorsers(s, r, endorsed, at, s', n);
  }

  lemma KeptHeavy(cfg: Config, s: Node, s': Node, n: Name)
    requires Heavy(cfg, s) && Subgraph(s.known, s'.known) && s.verified <= s'.verified
    requires n in s.backend && n !in s.tail
    ensures |Endorsers(s', n)| >= cfg.RemoveWeight()
  {
    EndorsersGrow(s, s', n);
  }

  lemma RecordedGrows(s: Node, r: Record, endorsed: bool, s': Node)
    requires Recorded(s, r, endorsed, s') && Genuine(s, r)
    ensures Subgraph(s.known, s'.known) && s.verified <= s'.verified
  {
  }

  lemma AddedHeavy(cfg: Config, s: Node, r: Record, endorsed: bool, at: int, s': Node)
    requires cfg.Valid() && Named(s) && Witnessed(s) && Sound(cfg, s.tail, s.backend) && Heavy(cfg, s)
    requires Addable(s, r, endorsed) && Origins(s, r, endorsed, s') && Recorded(s, r, endorsed, s')
    requires s'.tail == TailAfter(cfg, s, r, endorsed, at, s'.clock)
    requires s'.backend == BackendAfter(cfg, s, r, endorsed, at)
    ensures Heavy(cfg, s')
  {
    RecordedGrows(s, r, endorsed, s');
    forall n | n in s'.backend && n !in s'.tail ensures |Endorsers(s', n)| >= cfg.RemoveWeight() {
      if n in s.tail {
        DepartedHeavy(cfg, s, r, endorsed, at, s', n);
      } else {
        KeptHeavy(cfg, s, s', n);
      }
    }
  }

  lemma QuietHeavy(cfg: Config, s: Node, s': Node)
    requires Heavy(cfg, s) && Quiet(s, s')
    ensures Heavy(cfg, s')
  {
    forall n | n in s'.backend && n !in s'.tail ensures |Endorsers(s', n)| >= cfg.RemoveWeight() {
      KeptHeavy(cfg, s, s', n);
    }
  }

  lemma StepHeavy(cfg: Config, s: Node, e: Event, s': Node)
    requires cfg.Valid() && Inv(cfg, s) && Step(cfg, s, e, s') && Heavy(cfg, s)
    ensures Heavy(cfg, s')
  {
    match e
    case Receive(r, at) =>
      ReceiveQuiet(cfg, s, r, at, s');
      QuietHeavy(cfg, s, s');
    case Forget(i) =>
      ForgetQuiet(cfg, s, i, s');
      QuietHeavy(cfg, s, s');
    case _ =>
      EnabledAddable(cfg, s, e);
      AddedOrigins(cfg, s, e.r, Endorses(e), e.at, s');
      AddedHeavy(cfg, s, e.r, Endorses(e), e.at, s');
  }

  lemma {:induction false} RunHeavy(cfg: Config, states: seq<Node>, i: nat)
    requires cfg.Valid() && Run(cfg, states) && i < |states|
    ensures Heavy(cfg, states[i])
  {
    if i > 0 {
      RunHeavy(cfg, states, i - 1);
      var e := RunStep(cfg, states, i);
      StepHeavy(cfg, states[i - 1], e, states[i]);
    }
  }

  lemma EndorsersInTail(cfg: Config, s: Node, n: Name)
    requires Inv(cfg, s) && Retained(s) && n in s.tail
    ensures s.tail[n].refSet == Endorsers(s, n)
  {
    forall q ensures q in s.tail[n].refSet <==> q in Endorsers(s, n) {
      RetainedExact(cfg, s, n, q);
      EndorserIff(s, n, q);
    }
  }

  lemma RetainedConfirmed(cfg: Config, s: Node, n: Name)
    requires cfg.Valid() && Inv(cfg, s) && Retained(s) && Heavy(cfg, s) && n in s.verified
    ensures n in s.backend <==> |Endorsers(s, n)| >= cfg.confirmWeight
    ensures n in s.tail <==> |Endorsers(s, n)| < cfg.RemoveWeight()
  {
    assert Has(s.tail, s.backend, n);
    if n in s.tail {
      EndorsersInTail(cfg, s, n);
    }
  }

  /**
   In every run without eviction a verified record is confirmed exactly when confirmWeight producers
   other than its own wrote verified records leading to it, and in the tail exactly while fewer than
   the removal weight did: neither depends on the order in which the records came.
   */
  lemma ConfirmedExact(cfg: Config, states: seq<Node>, events: seq<Event>, i: nat, n: Name)
    requires cfg.Valid() && RunBy(cfg, states, events) && i < |states| && n in states[i].verified
    requires forall j :: 0 < j < |states| ==> EvictsNothing(cfg, states[j - 1], events[j], states[j])
    ensures n in states[i].backend <==> |Endorsers(states[i], n)| >= cfg.confirmWeight
    ensures n in states[i].tail <==> |Endorsers(states[i], n)| < cfg.RemoveWeight()
  {
    RunRetains(cfg, states, events, i);
    RunHeavy(cfg, states, i);
    RunKeeps(cfg, states, i);
    RetainedConfirmed(cfg, states[i], n);
  }
}
