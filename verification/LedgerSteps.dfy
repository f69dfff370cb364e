/** From what the fields of a ledger become to steps of its run. */
module LedgerSteps {
  import opened Records
  import opened LedgerState
  import opened LedgerInvariant
  import opened LedgerTheorems
  import opened LedgerQueue

  // ---- Longer runs --------------------------------------------------------------------------

  /** The second run is the first with one more step. */
  ghost predicate Steps(cfg: Config, run: seq<Node>, e: Event, run': seq<Node>) {
    && |run| > 0 && |run'| == |run| + 1 && run < run'
    && Step(cfg, run[|run| - 1], e, run'[|run'| - 1])
  }

  lemma RunExtends(cfg: Config, run: seq<Node>, e: Event, s': Node) returns (longer: seq<Node>)
    requires Run(cfg, run) && Step(cfg, run[|run| - 1], e, s')
    ensures longer == run + [s'] && longer[|longer| - 1] == s'
    ensures Run(cfg, longer) && Steps(cfg, run, e, longer)
  {
    longer := run + [s'];
    forall i | 0 < i < |longer| ensures Next(cfg, longer[i - 1], longer[i]) {
      if i < |run| {
        assert Next(cfg, run[i - 1], run[i]);
      }
    }
  }

  lemma ResolveGains(cfg: Config, run: seq<Node>, e: Event, s': Node)
    requires cfg.Valid() && Run(cfg, run) && Adds(e) && Step(cfg, run[|run| - 1], e, s')
    ensures var s := run[|run| - 1];
      GainsOnly(s, s', e.r.name) && s'.stack == s.stack && s'.known == s.known[e.r.name := e.r]
  {
    RunSound(cfg, run, |run| - 1);
    RunAddable(cfg, run, |run| - 1, e);
    StepGains(cfg, run[|run| - 1], e, s');
  }

  // ---- Adding a record ----------------------------------------------------------------------

  /** The event is an enabled addition of r. */
  ghost predicate Allows(cfg: Config, run: seq<Node>, r: Record, endorsed: bool, e: Event) {
    |run| > 0 && Adds(e) && e.r == r && Endorses(e) == endorsed && Enabled(cfg, run[|run| - 1], e)
  }

  /** The stages of an addition meet the conditions of the methods that carry them out. */
  ghost predicate Prepared(cfg: Config, s: Node, r: Record, endorsed: bool, at: int) {
    var t := Insert(s.tail, r, endorsed, at);
    var marks := NewMarks(s, r, endorsed, at);
    var marked := MarkedTail(s, r, endorsed, at);
    var pruned := Prune(cfg, marked, marks);
    && Rooted(t, r.name) && t[r.name].parentOk == endorsed
    && marks <= marked.Keys
    && (forall n :: n in marked ==> marked[n].record.name == n)
    && (forall n :: n in pruned && pruned[n].recordOk ==> pruned[n].parentOk)
  }

  lemma AddPrepared(cfg: Config, run: seq<Node>, s: Node, r: Record, endorsed: bool, e: Event, at: int)
    requires cfg.Valid() && Run(cfg, run) && Allows(cfg, run, r, endorsed, e) && s == run[|run| - 1]
    ensures Prepared(cfg, s, r, endorsed, at)
  {
    RunSound(cfg, run, |run| - 1);
    RunAddable(cfg, run, |run| - 1, e);
    var t, marks, marked, pruned := Stages(cfg, s, r, endorsed, at);
    InsertRoots(s, r, endorsed, at);
    NewMarksVerified(s, r, endorsed, at);
  }

  lemma MarkedFrom(s: Node, r: Record, endorsed: bool, at: int, tail: Tail, updated: set<Name>)
    requires var t := Insert(s.tail, r, endorsed, at);
      if endorsed then updated == Marks(t, r.name) && tail == Mark(t, updated, r.name.producer)
      else updated == {} && tail == t
    ensures updated == NewMarks(s, r, endorsed, at) && tail == MarkedTail(s, r, endorsed, at)
  {
  }

  lemma {:induction false} ReportedConcat(a: seq<Confirmation>, b: seq<Confirmation>)
    ensures Reported(a + b) == Reported(a) + Reported(b)
    decreases |b|
  {
    if b == [] {
      assert a + b == a;
    } else {
      ReportedConcat(a, b[..|b| - 1]);
      assert (a + b)[..|a + b| - 1] == a + b[..|b| - 1];
    }
  }

  /** The state that the stages of an addition lead to. */
  lemma Finished(cfg: Config, s: Node, r: Record, endorsed: bool, at: int,
                 tail: Tail, backend: map<Name, Record>, lastCerts: seq<Name>, now: int, log: seq<Confirmation>)
    returns (s': Node)
    requires s.clock <= at <= now && tail == TailAfter(cfg, s, r, endorsed, at, now)
    requires backend == BackendAfter(cfg, s, r, endorsed, at) && lastCerts == Frontier(s.lastCerts, log)
    requires var marked := MarkedTail(s, r, endorsed, at);
      Fires(log, marked, Confirmed(cfg, marked, NewMarks(s, r, endorsed, at)))
    ensures s'.tail == tail && s'.backend == backend && s'.lastCerts == lastCerts && s'.clock == now
    ensures s'.stack == s.stack && Reported(s'.log) == Reported(s.log) + Reported(log)
    ensures Added(cfg, s, r, endorsed, at, s')
  {
    s' := Node(tail, backend, s.stack, lastCerts, now, s.log + log, s.known[r.name := r],
               if endorsed && ParentsVerified(s.tail, r) then s.verified + {r.name} else s.verified,
               s.rank[r.name := s.births], s.births + 1);
    assert s'.log[|s.log|..] == log;
    ReportedConcat(s.log, log);
  }

  function AtTime(e: Event, at: int): Event {
    match e
    case Boot(r, _) => Boot(r, at)
    case Create(r, _) => Create(r, at)
    case Receive(r, _) => Receive(r, at)
    case Resolve(r, endorsed, _) => Resolve(r, endorsed, at)
    case Forget(i) => Forget(i)
  }

  lemma AddCompleted(cfg: Config, run: seq<Node>, s: Node, r: Record, endorsed: bool, e: Event, at: int, s': Node)
    returns (longer: seq<Node>)
    requires Run(cfg, run) && Allows(cfg, run, r, endorsed, e) && s == run[|run| - 1]
    requires Added(cfg, s, r, endorsed, at, s')
    ensures longer == run + [s'] && longer[|longer| - 1] == s'
    ensures Run(cfg, longer) && Steps(cfg, run, AtTime(e, at), longer)
  {
    longer := RunExtends(cfg, run, AtTime(e, at), s');
  }

  // ---- Starting and creating ----------------------------------------------------------------

  function GenesisRecord(i: nat): Record {
    Record(Name(GenesisPrefix, Genesis, i, 0, 0), [], [])
  }

  /** The run adds the genesis records one after the other. */
  ghost predicate Boots(cfg: Config, run: seq<Node>) {
    forall k :: 0 < k < |run| ==> BootsAs(cfg, run[k - 1], k - 1, run[k])
  }

  ghost predicate BootsAs(cfg: Config, s: Node, i: nat, s': Node) {
    exists at :: Step(cfg, s, Boot(GenesisRecord(i), at), s')
  }

  /** Every name seen or obtained so far carries an identifier below i. */
  ghost predicate Below(s: Node, i: nat) {
    forall n :: Seen(s.tail, s.backend, n) || n in s.known ==> n.identifier < i
  }

  lemma BootGains(cfg: Config, run: seq<Node>, i: nat, at: int, longer: seq<Node>)
    requires cfg.Valid() && Run(cfg, run) && |run| == i + 1 && Boots(cfg, run) && Below(run[i], i)
    requires Steps(cfg, run, Boot(GenesisRecord(i), at), longer)
    ensures Boots(cfg, longer) && Below(longer[i + 1], i + 1) && longer[i + 1].stack == run[i].stack
  {
    assert forall k :: 0 <= k < |run| ==> longer[k] == run[k];
    ResolveGains(cfg, run, Boot(GenesisRecord(i), at), longer[i + 1]);
    assert BootsAs(cfg, longer[i], i, longer[i + 1]);
  }

  datatype ReturnCode = NoError(name: Name) | NoTailingRecord | NotEnoughTailingRecord | SigningError

  /** The tail records a new record may point to. */
  ghost function Choices(cfg: Config, t: Tail): set<Name> {
    set n | n in t && Appendable(cfg, t, n)
  }

  lemma ChoicesMean(cfg: Config, t: Tail)
    ensures Choices(cfg, t) ==
      set n | n in t && |t[n].refSet| <= cfg.appendWeight && t[n].parentOk && n.producer != cfg.self
  {
  }

  /** The pointers of a record that comes with some of its own when it is created. */
  function Chosen(cfg: Config, own: seq<Name>, recordList: seq<Name>): seq<Name>
    requires cfg.Valid() && |recordList| >= cfg.precedingRecordNum
  {
    own + recordList[..if |own| < cfg.precedingRecordNum then cfg.precedingRecordNum - |own| else 1]
  }

  /**
   Such a record meets the pointer count and distinctness every peer asks for if and only if fewer
   than the expected number came with it, all distinct, and none of them is chosen again.
   */
  lemma OwnPointers(cfg: Config, own: seq<Name>, recordList: seq<Name>)
    requires cfg.Valid() && |recordList| >= cfg.precedingRecordNum && Distinct(recordList)
    ensures var pointers := Chosen(cfg, own, recordList);
      |pointers| == cfg.precedingRecordNum && Distinct(pointers) <==>
        && |own| < cfg.precedingRecordNum && Distinct(own)
        && forall p :: p in own ==> p !in recordList[..cfg.precedingRecordNum - |own|]
  {
    var pointers := Chosen(cfg, own, recordList);
    if |own| < cfg.precedingRecordNum {
      var more := recordList[..cfg.precedingRecordNum - |own|];
      ConcatDistinctIff(own, more);
    }
  }

  lemma ConcatDistinctIff(xs: seq<Name>, ys: seq<Name>)
    ensures Distinct(xs + ys) <==> Distinct(xs) && Distinct(ys) && forall x :: x in xs ==> x !in ys
  {
    var all := xs + ys;
    if Distinct(all) {
      forall i, j | 0 <= i < j < |xs| ensures xs[i] != xs[j] {
        assert all[i] != all[j];
      }
      forall i, j | 0 <= i < j < |ys| ensures ys[i] != ys[j] {
        assert all[|xs| + i] != all[|xs| + j];
      }
      forall i, j | 0 <= i < |xs| && 0 <= j < |ys| ensures xs[i] != ys[j] {
        assert all[i] != all[|xs| + j];
      }
    } else {
      var i, j :| 0 <= i < j < |all| && all[i] == all[j];
      if j < |xs| {
        assert xs[i] == xs[j];
      } else if i < |xs| {
        assert xs[i] in xs && ys[j - |xs|] in ys && xs[i] == ys[j - |xs|];
      } else {
        assert ys[i - |xs|] == ys[j - |xs|];
      }
    }
  }

  /** A record left with its pointers by a failed attempt is refused by every peer when it is created again. */
  lemma ReusedRefused(cfg: Config, r: Record, first: seq<Name>, second: seq<Name>, now: int)
    requires cfg.Valid() && |first| >= cfg.precedingRecordNum && |second| >= cfg.precedingRecordNum
    requires r.pointers == Chosen(cfg, Chosen(cfg, [], first), second)
    ensures !SyntaxOk(cfg, r, now)
  {
  }

  lemma CarriesLast(lastCerts: seq<Name>, items: seq<Option<Name>>, prevCerts: seq<Option<Name>>)
    requires |prevCerts| == |items| || |prevCerts| == |items| + |lastCerts|
    requires forall i :: |items| <= i < |prevCerts| ==> prevCerts[i] == Some(lastCerts[i - |items|])
    ensures |prevCerts| == |items| + |lastCerts| ==> forall n :: n in lastCerts ==> Some(n) in prevCerts
  {
    if |prevCerts| == |items| + |lastCerts| {
      forall n | n in lastCerts ensures Some(n) in prevCerts {
        var i :| 0 <= i < |lastCerts| && lastCerts[i] == n;
        assert prevCerts[|items| + i] == Some(n);
      }
    }
  }

  lemma DistinctStep(names: seq<Name>, i: nat)
    requires i < |names|
    ensures names[..i + 1] == names[..i] + [names[i]]
    ensures Distinct(names[..i + 1]) <==> Distinct(names[..i]) && names[i] !in names[..i]
  {
  }

  /**
   A record of this peer as it is added: the expected number of distinct light, verified, foreign tail
   records to point to, the application's items, and all latest certificate records if it is one.
   */
  ghost predicate Built(cfg: Config, t: Tail, lastCerts: seq<Name>, items: seq<Option<Name>>, r: Record) {
    && |r.pointers| == cfg.precedingRecordNum && Distinct(r.pointers)
    && (forall p :: p in r.pointers ==>
          p in t && |t[p].refSet| <= cfg.appendWeight && t[p].parentOk && p.producer != cfg.self)
    && items <= r.prevCerts
    && |r.prevCerts| == |items| + (if r.name.rtype == Certificate then |lastCerts| else 0)
    && (r.name.rtype == Certificate ==> forall n :: n in lastCerts ==> Some(n) in r.prevCerts)
    && (forall i :: |items| <= i < |r.prevCerts| ==> r.prevCerts[i] == Some(lastCerts[i - |items|]))
  }

  lemma BuiltAdmissible(cfg: Config, t: Tail, lastCerts: seq<Name>, items: seq<Option<Name>>, r: Record)
    requires cfg.Valid() && Built(cfg, t, lastCerts, items, r) && r.name.producer == cfg.self
    ensures forall now :: r.name.timestamp <= now + cfg.clockSkewTolerance ==> SyntaxOk(cfg, r, now)
    ensures ContributionOk(cfg, t, r)
  {
  }

  lemma BuiltEnabled(cfg: Config, s: Node, items: seq<Option<Name>>, r: Record, at: int)
    requires Built(cfg, s.tail, s.lastCerts, items, r) && Unmentioned(s, r.name) && Some(r.name) !in items
    requires r.name.producer == cfg.self && r.name.rtype != Genesis
    ensures Enabled(cfg, s, Create(r, at))
  {
  }
}
