/** The list of latest certificate records: from it every confirmed certificate record can be found. */
module CertFrontier {
  import opened Records
  import opened Dag
  import opened LedgerState
  import opened LedgerInvariant

  function Values(names: seq<Option<Name>>): (r: seq<Name>)
    ensures forall n :: n in r <==> Some(n) in names
  {
    if names == [] then []
    else if names[0].Some? then [names[0].value] + Values(names[1..])
    else Values(names[1..])
  }

  /** The confirmed certificate records, each pointing to the certificate records it supersedes. */
  function Succession(backend: map<Name, Record>): Graph {
    map n | n in backend && n.rtype == Certificate :: Record(n, Values(backend[n].prevCerts), [])
  }

  lemma {:induction false} WithoutMembers(names: seq<Name>, gone: Name, n: Name)
    ensures n in Without(names, gone) <==> n in names && n != gone
  {
    if names != [] {
      WithoutMembers(names[1..], gone, n);
    }
  }

  lemma {:induction false} WithoutAllMembers(names: seq<Name>, gone: seq<Option<Name>>, n: Name)
    ensures n in WithoutAll(names, gone) <==> n in names && Some(n) !in gone
    decreases |gone|
  {
    if gone != [] {
      if gone[0].Some? {
        WithoutMembers(names, gone[0].value, n);
        WithoutAllMembers(Without(names, gone[0].value), gone[1..], n);
      } else {
        WithoutAllMembers(names, gone[1..], n);
      }
    }
  }

  /** Some latest certificate record leads to n. */
  ghost predicate Found(g: Graph, latest: seq<Name>, n: Name) {
    exists l :: l in latest && Reaches(g, l, n)
  }

  /** The confirmations name certificate records of the backend, none of which supersedes itself. */
  ghost predicate Filed(log: seq<Confirmation>, backend: map<Name, Record>) {
    forall i :: 0 <= i < |log| ==>
      && log[i].record.name in backend && backend[log[i].record.name] == log[i].record
      && SelfFree(log[i].record)
  }

  lemma SupersedeFinds(g: Graph, latest: seq<Name>, r: Record, n: Name)
    requires r.name.rtype == Certificate && SelfFree(r)
    requires r.name in g && g[r.name].pointers == Values(r.prevCerts)
    requires n == r.name || Found(g, latest, n)
    ensures Found(g, Supersede(latest, r), n)
  {
    var longer := latest + [r.name];
    WithoutAllMembers(longer, r.prevCerts, r.name);
    if n == r.name {
      ReachesSelf(g, n);
    } else {
      var l :| l in latest && Reaches(g, l, n);
      WithoutAllMembers(longer, r.prevCerts, l);
      if Some(l) in r.prevCerts {
        ReachesWithin(g, l, n);
        ReachesPrepend(g, r.name, l, n);
      }
    }
  }

  lemma SupersedeKeeps(latest: seq<Name>, r: Record, n: Name)
    requires n in Supersede(latest, r)
    ensures n in latest || (n == r.name && n.rtype == Certificate)
  {
    if r.name.rtype == Certificate {
      WithoutAllMembers(latest + [r.name], r.prevCerts, n);
    }
  }

  /** Whatever the order of confirmations, every confirmed certificate record is found. */
  lemma {:induction false} FrontierFinds(log: seq<Confirmation>, backend: map<Name, Record>, k: nat)
    requires Filed(log, backend) && k <= |log|
    ensures forall n :: n in Frontier([], log[..k]) ==> n in backend && n.rtype == Certificate
    ensures forall i :: 0 <= i < k && log[i].record.name.rtype == Certificate ==>
      Found(Succession(backend), Frontier([], log[..k]), log[i].record.name)
  {
    if k > 0 {
      var latest, r := Frontier([], log[..k - 1]), log[k - 1].record;
      FrontierFinds(log, backend, k - 1);
      assert log[..k][..k - 1] == log[..k - 1];
      forall n | n in Frontier([], log[..k]) ensures n in backend && n.rtype == Certificate {
        SupersedeKeeps(latest, r, n);
      }
      forall i | 0 <= i < k && log[i].record.name.rtype == Certificate
        ensures Found(Succession(backend), Frontier([], log[..k]), log[i].record.name)
      {
        if r.name.rtype == Certificate {
          SupersedeFinds(Succession(backend), latest, r, log[i].record.name);
        }
      }
    }
  }

  // ---- Along a run ---------------------------------------------------------------------------

  lemma {:induction false} FrontierConcat(latest: seq<Name>, a: seq<Confirmation>, b: seq<Confirmation>)
    ensures Frontier(Frontier(latest, a), b) == Frontier(latest, a + b)
    decreases |b|
  {
    if b == [] {
      assert a + b == a;
    } else {
      FrontierConcat(latest, a, b[..|b| - 1]);
      assert (a + b)[..|a + b| - 1] == a + b[..|b| - 1];
    }
  }

  ghost predicate Unlooped(s: Node) {
    && (forall n :: n in s.tail ==> SelfFree(s.tail[n].record))
    && (forall n :: n in s.backend ==> SelfFree(s.backend[n]))
    && s.lastCerts == Frontier([], s.log)
  }

  lemma EnabledSelfFree(cfg: Config, s: Node, e: Event)
    requires Enabled(cfg, s, e) && Adds(e)
    requires e.Boot? ==> e.r.name.rtype == Genesis
    ensures SelfFree(e.r)
  {
  }

  lemma OriginsUnlooped(s: Node, r: Record, endorsed: bool, s': Node)
    requires Unlooped(s) && SelfFree(r) && Origins(s, r, endorsed, s')
    ensures forall n :: n in s'.tail ==> SelfFree(s'.tail[n].record)
    ensures forall n :: n in s'.backend ==> SelfFree(s'.backend[n])
  {
  }

  lemma ConfirmsFrontier(cfg: Config, s: Node, marked: Tail, marks: set<Name>, s': Node)
    requires s.lastCerts == Frontier([], s.log) && Confirms(cfg, s, marked, marks, s')
    ensures s'.lastCerts == Frontier([], s'.log)
  {
    FrontierConcat([], s.log, s'.log[|s.log|..]);
    assert s.log + s'.log[|s.log|..] == s'.log;
  }

  lemma AddedUnlooped(cfg: Config, s: Node, r: Record, endorsed: bool, at: int, s': Node)
    requires cfg.Valid() && Sound(cfg, s.tail, s.backend) && Unlooped(s)
    requires Addable(s, r, endorsed) && SelfFree(r) && Added(cfg, s, r, endorsed, at, s')
    ensures Unlooped(s')
  {
    AddedOrigins(cfg, s, r, endorsed, at, s');
    OriginsUnlooped(s, r, endorsed, s');
    ConfirmsFrontier(cfg, s, MarkedTail(s, r, endorsed, at), NewMarks(s, r, endorsed, at), s');
  }

  lemma {:induction false} RunUnlooped(cfg: Config, states: seq<Node>, i: nat)
    requires cfg.Valid() && Run(cfg, states) && i < |states|
    ensures Unlooped(states[i])
  {
    if i > 0 {
      RunUnlooped(cfg, states, i - 1);
      var e := RunStep(cfg, states, i);
      if Adds(e) {
        EnabledSelfFree(cfg, states[i - 1], e);
        EnabledAddable(cfg, states[i - 1], e);
        AddedUnlooped(cfg, states[i - 1], e.r, Endorses(e), e.at, states[i]);
      }
    }
  }

  /**
   The list of latest certificate records names only confirmed certificate records, and every
   confirmed certificate record is reachable from it along previous-certificate pointers.
   */
  lemma CertificatesReachable(cfg: Config, states: seq<Node>, i: nat)
    requires cfg.Valid() && Run(cfg, states) && i < |states|
    ensures var s := states[i];
      && (forall n :: n in s.lastCerts ==> n in s.backend && n.rtype == Certificate)
      && (forall n :: n in s.backend && n.rtype == Certificate ==> Found(Succession(s.backend), s.lastCerts, n))
  {
    RunUnlooped(cfg, states, i);
    RunLogged(cfg, states, i);
    var s := states[i];
    FrontierFinds(s.log, s.backend, |s.log|);
    assert s.log[..|s.log|] == s.log;
    forall n | n in s.backend && n.rtype == Certificate ensures Found(Succession(s.backend), s.lastCerts, n) {
      var j :| 0 <= j < |s.log| && s.log[j].record.name == n;
    }
  }

  lemma RunLogged(cfg: Config, states: seq<Node>, i: nat)
    requires cfg.Valid() && Run(cfg, states) && i < |states|
    ensures Logged(cfg, states[i]) && LoggedOnce(states[i])
  {
    RunKeeps(cfg, states, i);
  }

  // ---- What the list holds -------------------------------------------------------------------

  /** The i-th confirmation is of certificate record n, and none from then on names n as previous. */
  ghost predicate Standing(log: seq<Confirmation>, i: int, n: Name) {
    && 0 <= i < |log| && log[i].record.name == n && n.rtype == Certificate
    && forall j :: i <= j < |log| && log[j].record.name.rtype == Certificate ==> Some(n) !in log[j].record.prevCerts
  }

  lemma SupersedeMembers(latest: seq<Name>, r: Record, n: Name)
    ensures n in Supersede(latest, r) <==>
      if r.name.rtype == Certificate then (n in latest || n == r.name) && Some(n) !in r.prevCerts else n in latest
  {
    WithoutAllMembers(latest + [r.name], r.prevCerts, n);
  }

  lemma StandingStep(front: seq<Confirmation>, last: Confirmation, i: int, n: Name)
    ensures Standing(front + [last], i, n) <==>
      && (Standing(front, i, n) || (i == |front| && last.record.name == n && n.rtype == Certificate))
      && (last.record.name.rtype == Certificate ==> Some(n) !in last.record.prevCerts)
  {
    var log := front + [last];
    assert log[|front|] == last && forall j :: 0 <= j < |front| ==> log[j] == front[j];
  }

  /** A name is on the list exactly while its confirmation stands. */
  lemma {:induction false} FrontierExact(log: seq<Confirmation>, n: Name)
    ensures n in Frontier([], log) <==> exists i :: Standing(log, i, n)
    decreases |log|
  {
    if log != [] {
      var front, last := log[..|log| - 1], log[|log| - 1];
      assert log == front + [last];
      FrontierExact(front, n);
      SupersedeMembers(Frontier([], front), last.record, n);
      forall i ensures Standing(log, i, n) <==>
        && (Standing(front, i, n) || (i == |front| && last.record.name == n && n.rtype == Certificate))
        && (last.record.name.rtype == Certificate ==> Some(n) !in last.record.prevCerts)
      {
        StandingStep(front, last, i, n);
      }
      assert !Standing(front, |front|, n);
      if n in Frontier([], log) && n !in Frontier([], front) {
        assert Standing(log, |front|, n);
      }
    }
  }

  /**
   In every state of a run the list names exactly the confirmed certificate records that no
   certificate record confirmed from then on names as previous.
   */
  lemma LatestExact(cfg: Config, states: seq<Node>, i: nat, n: Name)
    requires cfg.Valid() && Run(cfg, states) && i < |states|
    ensures n in states[i].lastCerts <==> exists k :: Standing(states[i].log, k, n)
  {
    RunUnlooped(cfg, states, i);
    FrontierExact(states[i].log, n);
  }
}
