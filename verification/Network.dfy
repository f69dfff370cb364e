/**
 Several peers and the packets that exist between them. Honest peers run the ledger; faulty ones
 may publish any record under their own prefix, but cannot sign for an honest peer. Any packet may
 be delivered to any peer at any time, any number of times, or never.
 */
module Network {
  import opened Records
  import opened Dag
  import opened LedgerState
  import opened LedgerInvariant
  import opened LedgerTheorems
  import opened LedgerEndorsers

  /** The peers: the configuration of each honest one, and the prefixes of the faulty ones. */
  datatype Group = Group(cfgs: map<Producer, Config>, faulty: set<Producer>) {
    ghost predicate Valid() {
      && (forall q :: q in cfgs ==> cfgs[q].Valid() && cfgs[q].self == q)
      && cfgs.Keys !! faulty
    }
  }

  datatype Net = Net(nodes: map<Producer, Node>, packets: Graph)

  datatype NetEvent =
    | Act(peer: Producer, event: Event)
    | Forge(r: Record)

  /** The packet an event publishes or draws on agrees with the packets that exist. */
  ghost predicate Carries(packets: Graph, e: Event, packets': Graph) {
    match e
    case Boot(r, _) => (r.name in packets ==> packets[r.name] == r) && packets' == packets[r.name := r]
    case Create(r, _) => r.name !in packets && packets' == packets[r.name := r]
    case Receive(r, _) => r.name in packets && packets[r.name] == r && packets' == packets
    case _ => packets' == packets
  }

  ghost predicate NetStep(g: Group, net: Net, e: NetEvent, net': Net) {
    match e
    case Act(peer, event) =>
      && peer in g.cfgs && peer in net.nodes && peer in net'.nodes
      && Step(g.cfgs[peer], net.nodes[peer], event, net'.nodes[peer])
      && net'.nodes == net.nodes[peer := net'.nodes[peer]]
      && Carries(net.packets, event, net'.packets)
    case Forge(r) =>
      && r.name.producer in g.faulty && r.name !in net.packets
      && net' == Net(net.nodes, net.packets[r.name := r])
  }

  ghost predicate NetNext(g: Group, net: Net, net': Net) {
    exists e :: NetStep(g, net, e, net')
  }

  ghost predicate NetRun(g: Group, states: seq<Net>) {
    && |states| > 0
    && states[0] == Net(map q | q in g.cfgs :: EMPTY_NODE, map[])
    && forall i :: 0 < i < |states| ==> NetNext(g, states[i - 1], states[i])
  }

  // ---- The invariant of the group ------------------------------------------------------------

  /** What a peer obtained are packets that exist. */
  ghost predicate Shared(net: Net) {
    forall q :: q in net.nodes ==> Subgraph(net.nodes[q].known, net.packets)
  }

  /** A record with predecessors is by a faulty peer or was verified by the honest peer it names. */
  ghost predicate Authored(g: Group, net: Net) {
    forall n :: n in net.packets && net.packets[n].pointers != [] ==>
      n.producer in g.faulty || (n.producer in net.nodes && n in net.nodes[n.producer].verified)
  }

  lemma VerifiedGrows(cfg: Config, s: Node, e: Event, s': Node)
    requires Step(cfg, s, e, s')
    ensures s.verified <= s'.verified
  {
  }

  lemma KnownAfter(cfg: Config, s: Node, e: Event, s': Node)
    requires Stacked(s) && Step(cfg, s, e, s')
    ensures s'.known == if e.Resolve? || e.Forget? then s.known else s.known[e.r.name := e.r]
  {
    if e.Resolve? {
      assert s.known[e.r.name := e.r] == s.known;
    }
  }

  lemma KnownFromPackets(known: Graph, e: Event, known': Graph, packets: Graph, packets': Graph)
    requires known' == if e.Resolve? || e.Forget? then known else known[e.r.name := e.r]
    requires Carries(packets, e, packets') && Subgraph(known, packets)
    ensures Subgraph(known', packets') && Subgraph(packets, packets')
  {
  }

  lemma CreatedVerified(cfg: Config, s: Node, e: Event, s': Node)
    requires Step(cfg, s, e, s') && e.Create?
    ensures e.r.name.producer == cfg.self && e.r.name in s'.verified
  {
  }

  lemma NodesKeyed(g: Group, states: seq<Net>, i: nat)
    requires NetRun(g, states) && i < |states|
    ensures states[i].nodes.Keys == g.cfgs.Keys
  {
    if i > 0 {
      NodesKeyed(g, states, i - 1);
      assert NetNext(g, states[i - 1], states[i]);
    }
  }

  /** Whatever the others do, each honest peer's own state satisfies the ledger invariant. */
  lemma {:induction false} NodeKeeps(g: Group, states: seq<Net>, i: nat, q: Producer)
    requires g.Valid() && NetRun(g, states) && i < |states| && q in g.cfgs
    ensures q in states[i].nodes && Inv(g.cfgs[q], states[i].nodes[q])
  {
    if i > 0 {
      NodeKeeps(g, states, i - 1, q);
      assert NetNext(g, states[i - 1], states[i]);
      var e :| NetStep(g, states[i - 1], e, states[i]);
      if e.Act? && e.peer == q {
        StepKeeps(g.cfgs[q], states[i - 1].nodes[q], e.event, states[i].nodes[q]);
      }
    }
  }

  lemma NodeStacked(g: Group, states: seq<Net>, i: nat, q: Producer)
    requires g.Valid() && NetRun(g, states) && i < |states| && q in g.cfgs
    ensures q in states[i].nodes && Stacked(states[i].nodes[q]) && Vouched(states[i].nodes[q])
  {
    NodeKeeps(g, states, i, q);
  }

  lemma StepShares(g: Group, net: Net, e: NetEvent, net': Net)
    requires Shared(net) && NetStep(g, net, e, net')
    requires e.Act? ==> Stacked(net.nodes[e.peer])
    ensures Shared(net')
  {
    if e.Act? {
      KnownAfter(g.cfgs[e.peer], net.nodes[e.peer], e.event, net'.nodes[e.peer]);
      KnownFromPackets(net.nodes[e.peer].known, e.event, net'.nodes[e.peer].known, net.packets, net'.packets);
    }
  }

  lemma StepAuthors(g: Group, net: Net, e: NetEvent, net': Net)
    requires g.Valid() && Authored(g, net) && NetStep(g, net, e, net')
    ensures Authored(g, net')
  {
    if e.Act? {
      VerifiedGrows(g.cfgs[e.peer], net.nodes[e.peer], e.event, net'.nodes[e.peer]);
      if e.event.Create? {
        CreatedVerified(g.cfgs[e.peer], net.nodes[e.peer], e.event, net'.nodes[e.peer]);
      }
    }
  }

  lemma {:induction false} NetRunKeeps(g: Group, states: seq<Net>, i: nat)
    requires g.Valid() && NetRun(g, states) && i < |states|
    ensures Shared(states[i]) && Authored(g, states[i])
  {
    if i > 0 {
      NetRunKeeps(g, states, i - 1);
      assert NetNext(g, states[i - 1], states[i]);
      var e :| NetStep(g, states[i - 1], e, states[i]);
      if e.Act? {
        NodeStacked(g, states, i - 1, e.peer);
      }
      StepShares(g, states[i - 1], e, states[i]);
      StepAuthors(g, states[i - 1], e, states[i]);
    }
  }

  // ---- Persistence ---------------------------------------------------------------------------

  /** Peer q verified record n and everything n leads to, with the very content others see. */
  ghost predicate Holds(net: Net, q: Producer, n: Name) {
    && q in net.nodes
    && forall a :: Reaches(net.packets, n, a) ==>
         && a in net.nodes[q].verified && a in net.nodes[q].known && a in net.packets
         && net.nodes[q].known[a] == net.packets[a]
  }

  /** An honest peer that verified a record verified everything the record leads to. */
  lemma VerifiedHolds(net: Net, q: Producer, w: Name, n: Name)
    requires q in net.nodes && Vouched(net.nodes[q]) && Subgraph(net.nodes[q].known, net.packets)
    requires w in net.nodes[q].verified && Reaches(net.packets, w, n)
    ensures Holds(net, q, n)
  {
    var s := net.nodes[q];
    assert Closed(net.packets, s.verified);
    forall a | Reaches(net.packets, n, a) ensures a in s.verified {
      ReachesTransitive(net.packets, w, n, a);
      ReachesInto(net.packets, w, a, s.verified);
    }
  }

  lemma WitnessHolds(g: Group, net: Net, peer: Producer, q: Producer, n: Name)
    requires Shared(net) && Authored(g, net)
    requires peer in net.nodes && Witness(net.nodes[peer], q, n)
    requires q in net.nodes ==> Vouched(net.nodes[q])
    ensures q in g.faulty || Holds(net, q, n)
  {
    var s := net.nodes[peer];
    var w :| w in s.verified && w.producer == q && w != n && Reaches(s.known, w, n);
    ReachesSubgraph(s.known, net.packets, w, n);
    var next := ReachesFirstEdge(net.packets, w, n);
    if q !in g.faulty {
      VerifiedHolds(net, q, w, n);
    }
  }

  /** Every endorser an honest peer counts is faulty or holds the record and all its ancestors. */
  lemma EndorserHolds(g: Group, states: seq<Net>, i: nat, peer: Producer, n: Name, q: Producer)
    requires g.Valid() && NetRun(g, states) && i < |states|
    requires peer in g.cfgs && peer in states[i].nodes
    requires n in states[i].nodes[peer].tail && q in states[i].nodes[peer].tail[n].refSet
    ensures q in g.faulty || Holds(states[i], q, n)
  {
    NetRunKeeps(g, states, i);
    NodesKeyed(g, states, i);
    TailWitness(g, states, i, peer, n, q);
    if q in g.cfgs {
      NodeStacked(g, states, i, q);
    }
    WitnessHolds(g, states[i], peer, q, n);
  }

  lemma TailWitness(g: Group, states: seq<Net>, i: nat, peer: Producer, n: Name, q: Producer)
    requires g.Valid() && NetRun(g, states) && i < |states|
    requires peer in g.cfgs && peer in states[i].nodes
    requires n in states[i].nodes[peer].tail && q in states[i].nodes[peer].tail[n].refSet
    ensures Witness(states[i].nodes[peer], q, n)
  {
    NodeKeeps(g, states, i, peer);
  }

  lemma SplitSize<T>(a: set<T>, b: set<T>, c: set<T>)
    requires a <= b + c
    ensures |a| <= |b| + |c|
  {
    SubsetSize(a, b + c);
    assert b + c == b + (c - b) && |b + (c - b)| == |b| + |c - b|;
    SubsetSize(c - b, c);
  }

  /**
   Whenever an honest peer has confirmed a record, at least confirmWeight peers other than the
   record's producer, less at most the faulty ones, have each verified the record and all of its
   ancestors. With no faulty peer these are confirmWeight distinct peers.
   */
  lemma Persistence(g: Group, states: seq<Net>, i: nat, peer: Producer, n: Name) returns (holders: set<Producer>)
    requires g.Valid() && NetRun(g, states) && i < |states|
    requires peer in g.cfgs && peer in states[i].nodes && n in states[i].nodes[peer].backend
    ensures holders <= g.cfgs.Keys && n.producer !in holders
    ensures |holders| + |g.faulty| >= g.cfgs[peer].confirmWeight
    ensures n in states[i].packets
    ensures forall q :: q in holders ==> Holds(states[i], q, n)
  {
    NetRunKeeps(g, states, i);
    var net := states[i];
    var s := net.nodes[peer];
    var endorsers := EndorsersOf(g, states, i, peer, n);
    NodesKeyed(g, states, i);
    forall q | q in endorsers ensures q in g.faulty || Holds(net, q, n) {
      if q in g.cfgs {
        NodeStacked(g, states, i, q);
      }
      WitnessHolds(g, net, peer, q, n);
    }
    holders := endorsers - g.faulty;
    SplitSize(endorsers, holders, g.faulty);
  }

  lemma EndorsersOf(g: Group, states: seq<Net>, i: nat, peer: Producer, n: Name) returns (endorsers: set<Producer>)
    requires g.Valid() && NetRun(g, states) && i < |states|
    requires peer in g.cfgs && peer in states[i].nodes && n in states[i].nodes[peer].backend
    ensures |endorsers| == g.cfgs[peer].confirmWeight && n.producer !in endorsers
    ensures forall q :: q in endorsers ==> Witness(states[i].nodes[peer], q, n)
    ensures n in states[i].nodes[peer].known
  {
    NodeKeeps(g, states, i, peer);
    var s := states[i].nodes[peer];
    var j :| 0 <= j < |s.log| && s.log[j].record.name == n;
    endorsers := s.log[j].endorsers;
  }

  lemma {:induction false} VerifiedStays(g: Group, states: seq<Net>, i: nat, j: nat, q: Producer)
    requires g.Valid() && NetRun(g, states) && i <= j < |states| && q in g.cfgs
    ensures q in states[i].nodes && q in states[j].nodes
    ensures states[i].nodes[q].verified <= states[j].nodes[q].verified
    decreases j
  {
    NodesKeyed(g, states, i);
    NodesKeyed(g, states, j);
    if i < j {
      VerifiedStays(g, states, i, j - 1, q);
      assert NetNext(g, states[j - 1], states[j]);
      var e :| NetStep(g, states[j - 1], e, states[j]);
      if e.Act? && e.peer == q {
        VerifiedGrows(g.cfgs[q], states[j - 1].nodes[q], e.event, states[j].nodes[q]);
      }
    }
  }

  /** Whoever held a record with all its ancestors holds them in every later state. */
  lemma HoldsForever(g: Group, states: seq<Net>, i: nat, j: nat, q: Producer, n: Name)
    requires g.Valid() && NetRun(g, states) && i <= j < |states| && q in g.cfgs
    requires n in states[i].packets && Holds(states[i], q, n)
    ensures Holds(states[j], q, n)
  {
    ReachesSelf(states[i].packets, n);
    VerifiedStays(g, states, i, j, q);
    NodeStacked(g, states, j, q);
    NetRunKeeps(g, states, j);
    assert n in states[j].nodes[q].verified;
    ReachesSelf(states[j].packets, n);
    VerifiedHolds(states[j], q, n, n);
  }

  lemma ConfirmedIsPacket(g: Group, states: seq<Net>, i: nat, q: Producer, n: Name)
    requires g.Valid() && NetRun(g, states) && i < |states| && q in g.cfgs
    requires q in states[i].nodes && n in states[i].nodes[q].backend
    ensures n in states[i].packets && states[i].nodes[q].backend[n] == states[i].packets[n]
  {
    NodeKeeps(g, states, i, q);
    NetRunKeeps(g, states, i);
  }

  /**
   Two honest peers that both confirmed a record both confirmed every ancestor of it, with equal
   content: their confirmed ledgers are one and the same below it.
   */
  lemma ConfirmedHistoryAgrees(g: Group, states: seq<Net>, i: nat, q: Producer, q': Producer, n: Name, a: Name)
    requires g.Valid() && NetRun(g, states) && i < |states| && q in g.cfgs && q' in g.cfgs
    requires q in states[i].nodes && n in states[i].nodes[q].backend
    requires q' in states[i].nodes && n in states[i].nodes[q'].backend
    requires Reaches(states[i].packets, n, a)
    ensures a in states[i].packets && a in states[i].nodes[q].backend && a in states[i].nodes[q'].backend
    ensures states[i].nodes[q].backend[a] == states[i].nodes[q'].backend[a] == states[i].packets[a]
  {
    ConfirmedCloses(g, states, i, q);
    ConfirmedCloses(g, states, i, q');
    ReachesInto(states[i].packets, n, a, states[i].nodes[q].backend.Keys);
    ReachesInto(states[i].packets, n, a, states[i].nodes[q'].backend.Keys);
    ConfirmedIsPacket(g, states, i, q, a);
    ConfirmedIsPacket(g, states, i, q', a);
  }

  lemma ConfirmedCloses(g: Group, states: seq<Net>, i: nat, q: Producer)
    requires g.Valid() && NetRun(g, states) && i < |states| && q in g.cfgs && q in states[i].nodes
    ensures Closed(states[i].packets, states[i].nodes[q].backend.Keys)
  {
    NodeAnchored(g, states, i, q);
    var s := states[i].nodes[q];
    forall a, b | a in s.backend.Keys && Edge(states[i].packets, a, b) ensures b in s.backend.Keys {
      ConfirmedIsPacket(g, states, i, q, a);
    }
  }

  lemma NodeAnchored(g: Group, states: seq<Net>, i: nat, q: Producer)
    requires g.Valid() && NetRun(g, states) && i < |states| && q in g.cfgs
    ensures q in states[i].nodes && Anchored(states[i].nodes[q].tail, states[i].nodes[q].backend)
  {
    NodeKeeps(g, states, i, q);
  }

  // ---- Equal weights -------------------------------------------------------------------------

  /** No honest peer evicts anything in the step. */
  ghost predicate NothingEvicted(g: Group, net: Net, e: NetEvent, net': Net) {
    e.Act? ==>
      && e.peer in g.cfgs && e.peer in net.nodes && e.peer in net'.nodes
      && EvictsNothing(g.cfgs[e.peer], net.nodes[e.peer], e.event, net'.nodes[e.peer])
  }

  ghost predicate RetainingNext(g: Group, net: Net, net': Net) {
    exists e :: NetStep(g, net, e, net') && NothingEvicted(g, net, e, net')
  }

  /** A run of the group in which no honest peer evicts anything. */
  ghost predicate Retaining(g: Group, states: seq<Net>) {
    forall i {:trigger RetainingAt(g, states, i)} :: 0 < i < |states| ==> RetainingAt(g, states, i)
  }

  ghost predicate RetainingAt(g: Group, states: seq<Net>, i: int)
    requires 0 < i < |states|
  {
    RetainingNext(g, states[i - 1], states[i])
  }

  lemma NodeRetains(g: Group, net: Net, net': Net, q: Producer)
    requires RetainingNext(g, net, net')
    requires q in g.cfgs && g.cfgs[q].Valid() && q in net.nodes && q in net'.nodes
    requires Inv(g.cfgs[q], net.nodes[q]) && Retained(net.nodes[q])
    ensures Retained(net'.nodes[q])
  {
    var e :| NetStep(g, net, e, net') && NothingEvicted(g, net, e, net');
    if e.Act? && e.peer == q {
      StepRetains(g.cfgs[q], net.nodes[q], e.event, net'.nodes[q]);
    }
  }

  lemma {:induction false} NetRunRetains(g: Group, states: seq<Net>, i: nat, q: Producer)
    requires g.Valid() && NetRun(g, states) && Retaining(g, states) && i < |states| && q in g.cfgs
    ensures q in states[i].nodes && Retained(states[i].nodes[q])
  {
    NodesKeyed(g, states, i);
    if i > 0 {
      NetRunRetains(g, states, i - 1, q);
      NodeKeeps(g, states, i - 1, q);
      assert RetainingAt(g, states, i);
      NodeRetains(g, states[i - 1], states[i], q);
    }
  }

  /** What a verified record leads to among the packets, it leads to among the packets obtained. */
  lemma VerifiedReaches(s: Node, packets: Graph, w: Name, p: Name)
    requires Vouched(s) && Subgraph(s.known, packets) && w in s.verified && Reaches(packets, w, p)
    ensures Reaches(s.known, w, p)
  {
    var met := set n | n in s.verified && Reaches(s.known, w, n);
    ReachesSelf(s.known, w);
    forall a, b | a in met && Edge(packets, a, b) ensures b in met {
      ReachesStep(s.known, w, a, b);
    }
    ReachesInto(packets, w, p, met);
  }

  lemma WitnessCarries(s: Node, s': Node, packets: Graph, q: Producer, p: Name)
    requires Subgraph(s.known, packets) && Subgraph(s'.known, packets) && Vouched(s')
    requires s.verified <= s'.verified && Witness(s, q, p)
    ensures Witness(s', q, p)
  {
    var w :| w in s.verified && w.producer == q && w != p && Reaches(s.known, w, p);
    ReachesSubgraph(s.known, packets, w, p);
    VerifiedReaches(s', packets, w, p);
  }

  /**
   While nobody evicts anything, two honest peers that verified the same records count the same
   endorsers for every record both hold in the tail, whatever order the records reached them in.
   */
  lemma EndorsersAgree(g: Group, states: seq<Net>, i: nat, a: Producer, b: Producer, p: Name)
    requires g.Valid() && NetRun(g, states) && Retaining(g, states) && i < |states| && a in g.cfgs && b in g.cfgs
    requires a in states[i].nodes && b in states[i].nodes
    requires states[i].nodes[a].verified == states[i].nodes[b].verified
    requires p in states[i].nodes[a].tail && p in states[i].nodes[b].tail
    ensures states[i].nodes[a].tail[p].refSet == states[i].nodes[b].tail[p].refSet
  {
    forall q ensures q in states[i].nodes[a].tail[p].refSet <==> q in states[i].nodes[b].tail[p].refSet {
      EndorserCarries(g, states, i, a, b, p, q);
      EndorserCarries(g, states, i, b, a, p, q);
    }
  }

  lemma EndorserCarries(g: Group, states: seq<Net>, i: nat, a: Producer, b: Producer, p: Name, q: Producer)
    requires g.Valid() && NetRun(g, states) && Retaining(g, states) && i < |states| && a in g.cfgs && b in g.cfgs
    requires a in states[i].nodes && b in states[i].nodes
    requires states[i].nodes[a].verified <= states[i].nodes[b].verified
    requires p in states[i].nodes[a].tail && p in states[i].nodes[b].tail
    ensures q in states[i].nodes[a].tail[p].refSet ==> q in states[i].nodes[b].tail[p].refSet
  {
    NodeExact(g, states, i, a, p, q);
    NodeExact(g, states, i, b, p, q);
    NetRunKeeps(g, states, i);
    NodeStacked(g, states, i, b);
    if Witness(states[i].nodes[a], q, p) {
      WitnessCarries(states[i].nodes[a], states[i].nodes[b], states[i].packets, q, p);
    }
  }

  lemma NodeExact(g: Group, states: seq<Net>, i: nat, a: Producer, p: Name, q: Producer)
    requires g.Valid() && NetRun(g, states) && Retaining(g, states) && i < |states| && a in g.cfgs
    requires a in states[i].nodes && p in states[i].nodes[a].tail
    ensures q in states[i].nodes[a].tail[p].refSet <==> q != p.producer && Witness(states[i].nodes[a], q, p)
  {
    NetRunRetains(g, states, i, a);
    NodeKeeps(g, states, i, a);
    RetainedExact(g.cfgs[a], states[i].nodes[a], p, q);
  }

  // ---- Equal ledgers -------------------------------------------------------------------------

  lemma NodeHeavy(g: Group, net: Net, net': Net, q: Producer)
    requires NetNext(g, net, net') && q in g.cfgs && g.cfgs[q].Valid() && q in net.nodes && q in net'.nodes
    requires Inv(g.cfgs[q], net.nodes[q]) && Heavy(g.cfgs[q], net.nodes[q])
    ensures Heavy(g.cfgs[q], net'.nodes[q])
  {
    var e :| NetStep(g, net, e, net');
    if e.Act? && e.peer == q {
      StepHeavy(g.cfgs[q], net.nodes[q], e.event, net'.nodes[q]);
    }
  }

  lemma {:induction false} NetRunHeavy(g: Group, states: seq<Net>, i: nat, q: Producer)
    requires g.Valid() && NetRun(g, states) && i < |states| && q in g.cfgs
    ensures q in states[i].nodes && Heavy(g.cfgs[q], states[i].nodes[q])
  {
    NodesKeyed(g, states, i);
    if i > 0 {
      NetRunHeavy(g, states, i - 1, q);
      NodeKeeps(g, states, i - 1, q);
      assert NetNext(g, states[i - 1], states[i]);
      NodeHeavy(g, states[i - 1], states[i], q);
    }
  }

  lemma NodeConfirmed(g: Group, states: seq<Net>, i: nat, q: Producer, n: Name)
    requires g.Valid() && NetRun(g, states) && Retaining(g, states) && i < |states| && q in g.cfgs
    requires q in states[i].nodes && n in states[i].nodes[q].verified
    ensures var s := states[i].nodes[q];
      && (n in s.backend <==> |Endorsers(s, n)| >= g.cfgs[q].confirmWeight)
      && (n in s.tail <==> |Endorsers(s, n)| < g.cfgs[q].RemoveWeight())
      && Has(s.tail, s.backend, n)
  {
    NetRunRetains(g, states, i, q);
    NetRunHeavy(g, states, i, q);
    NodeKeeps(g, states, i, q);
    RetainedConfirmed(g.cfgs[q], states[i].nodes[q], n);
  }

  lemma EndorsersCarryOver(s: Node, s': Node, packets: Graph, n: Name)
    requires Subgraph(s.known, packets) && Subgraph(s'.known, packets) && Vouched(s) && Vouched(s')
    requires s.verified == s'.verified
    ensures Endorsers(s, n) == Endorsers(s', n)
  {
    forall q ensures q in Endorsers(s, n) <==> q in Endorsers(s', n) {
      EndorserIff(s, n, q);
      EndorserIff(s', n, q);
      if Witness(s, q, n) {
        WitnessCarries(s, s', packets, q, n);
      }
      if Witness(s', q, n) {
        WitnessCarries(s', s, packets, q, n);
      }
    }
  }

  /** Two honest peers that settle records by the same weights and verified the same records. */
  ghost predicate Alike(g: Group, net: Net, a: Producer, b: Producer) {
    && a in g.cfgs && b in g.cfgs && a in net.nodes && b in net.nodes
    && g.cfgs[a].confirmWeight == g.cfgs[b].confirmWeight
    && g.cfgs[a].contributionWeight == g.cfgs[b].contributionWeight
    && net.nodes[a].verified == net.nodes[b].verified
  }

  lemma AlikePlaces(g: Group, states: seq<Net>, i: nat, a: Producer, b: Producer, n: Name)
    requires g.Valid() && NetRun(g, states) && Retaining(g, states) && i < |states| && Alike(g, states[i], a, b)
    requires n in states[i].nodes[a].verified
    ensures n in states[i].nodes[a].backend <==> n in states[i].nodes[b].backend
    ensures n in states[i].nodes[a].tail <==> n in states[i].nodes[b].tail
    ensures n in states[i].nodes[b].tail ==> states[i].nodes[b].tail[n].parentOk
  {
    NodeConfirmed(g, states, i, a, n);
    NodeConfirmed(g, states, i, b, n);
    NetRunKeeps(g, states, i);
    NodeStacked(g, states, i, a);
    NodeStacked(g, states, i, b);
    EndorsersCarryOver(states[i].nodes[a], states[i].nodes[b], states[i].packets, n);
  }

  /** The verified part of the tail: the records and who endorses them. */
  ghost function VerifiedTail(s: Node): map<Name, (Record, set<Producer>)> {
    map n | n in s.tail && s.tail[n].parentOk :: (s.tail[n].record, s.tail[n].refSet)
  }

  lemma TailCarries(g: Group, states: seq<Net>, i: nat, a: Producer, b: Producer, n: Name)
    requires g.Valid() && NetRun(g, states) && Retaining(g, states) && i < |states| && Alike(g, states[i], a, b)
    requires n in VerifiedTail(states[i].nodes[a])
    ensures n in VerifiedTail(states[i].nodes[b])
    ensures VerifiedTail(states[i].nodes[b])[n] == VerifiedTail(states[i].nodes[a])[n]
  {
    NodeStacked(g, states, i, a);
    AlikePlaces(g, states, i, a, b, n);
    EndorsersAgree(g, states, i, a, b, n);
    TailIsPacket(g, states, i, a, n);
    TailIsPacket(g, states, i, b, n);
  }

  lemma TailIsPacket(g: Group, states: seq<Net>, i: nat, q: Producer, n: Name)
    requires g.Valid() && NetRun(g, states) && i < |states| && q in g.cfgs
    requires q in states[i].nodes && n in states[i].nodes[q].tail
    ensures n in states[i].packets && states[i].nodes[q].tail[n].record == states[i].packets[n]
  {
    NodeKeeps(g, states, i, q);
    NetRunKeeps(g, states, i);
  }

  lemma BackendCarries(g: Group, states: seq<Net>, i: nat, a: Producer, b: Producer, n: Name)
    requires g.Valid() && NetRun(g, states) && Retaining(g, states) && i < |states| && Alike(g, states[i], a, b)
    requires n in states[i].nodes[a].backend
    ensures n in states[i].nodes[b].backend
    ensures states[i].nodes[b].backend[n] == states[i].nodes[a].backend[n]
  {
    NodeStacked(g, states, i, a);
    AlikePlaces(g, states, i, a, b, n);
    ConfirmedIsPacket(g, states, i, a, n);
    ConfirmedIsPacket(g, states, i, b, n);
  }

  /**
   While nobody evicts anything, two honest peers with the same weights that verified the same records
   have the same confirmed ledger and the same verified tail, endorsers included, whatever order the
   records reached them in.
   */
  lemma LedgersAgree(g: Group, states: seq<Net>, i: nat, a: Producer, b: Producer)
    requires g.Valid() && NetRun(g, states) && Retaining(g, states) && i < |states| && Alike(g, states[i], a, b)
    ensures states[i].nodes[a].backend == states[i].nodes[b].backend
    ensures VerifiedTail(states[i].nodes[a]) == VerifiedTail(states[i].nodes[b])
  {
    var s, s' := states[i].nodes[a], states[i].nodes[b];
    forall n | n in s.backend ensures n in s'.backend && s'.backend[n] == s.backend[n] {
      BackendCarries(g, states, i, a, b, n);
    }
    forall n | n in s'.backend ensures n in s.backend {
      BackendCarries(g, states, i, b, a, n);
    }
    forall n | n in VerifiedTail(s) ensures n in VerifiedTail(s') && VerifiedTail(s')[n] == VerifiedTail(s)[n] {
      TailCarries(g, states, i, a, b, n);
    }
    forall n | n in VerifiedTail(s') ensures n in VerifiedTail(s) {
      TailCarries(g, states, i, b, a, n);
    }
  }
}
