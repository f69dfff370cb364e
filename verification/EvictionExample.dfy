/**
 A run after which the announced records do not cover the tail: a record keeps the weight that an
 expired record gave it, but the expired record is gone.
 */
module EvictionExample {
  import opened Records
  import opened Dag
  import opened LedgerState
  import opened LedgerTheorems
  import opened LedgerQueue
  import opened LedgerSteps
  import opened LedgerWaiting

  /** Ancestors may take longer to arrive than records may take to be confirmed. */
  const CFG: Config := Config(Peer(0), 1, 1, 1, 1, 1, 500, 5, 60)
  const ROOT: Record := GenesisRecord(0)
  const CHILD: Record := Record(Name(Peer(1), Generic, 1, 0, 1), [ROOT.name], [])
  const LATE: Record := Record(Name(Peer(2), Generic, 2, 0, 2), [ROOT.name], [])

  function Fresh(r: Record, ok: bool, at: int): TailState {
    TailState(ok, {}, ok, r, at)
  }

  const ENDORSED_ROOT: TailState := TailState(true, {Peer(1)}, true, ROOT, 0)

  /** After the genesis record. */
  function S1(): Node {
    Node(map[ROOT.name := Fresh(ROOT, true, 0)], map[], [], [], 0, [],
         map[ROOT.name := ROOT], {ROOT.name}, map[ROOT.name := 0], 1)
  }

  /** After the child arrived, and after it was added and confirmed its parent. */
  function S2(): Node {
    S1().(stack := [Waiting(CHILD, 0)], known := S1().known[CHILD.name := CHILD])
  }

  function S3(): Node {
    S2().(tail := map[ROOT.name := ENDORSED_ROOT, CHILD.name := Fresh(CHILD, true, 0)],
          backend := map[ROOT.name := ROOT], log := [Confirmation(ROOT, {Peer(1)})],
          verified := {ROOT.name} + {CHILD.name}, rank := S2().rank[CHILD.name := 1], births := 2)
  }

  /** After the child was taken off the waiting list. */
  function S4(): Node {
    S3().(stack := [])
  }

  /** After the late record arrived, after adding it unendorsed evicted the child, and off the list. */
  function S5(): Node {
    S4().(stack := [Waiting(LATE, 100)], known := S4().known[LATE.name := LATE], clock := 100)
  }

  function S6(): Node {
    S5().(tail := map[ROOT.name := ENDORSED_ROOT, LATE.name := Fresh(LATE, false, 100)],
          rank := S5().rank[LATE.name := 2], births := 3)
  }

  function S7(): Node {
    S6().(stack := [])
  }

  /** The run up to the genesis record, up to the child and up to the late record. */
  function Booted(): seq<Node> {
    [EMPTY_NODE, S1()]
  }

  function ChildFetched(): seq<Node> {
    Booted() + [S2()] + [S3(), S4()]
  }

  function LateFetched(): seq<Node> {
    ChildFetched() + [S5()] + [S6(), S7()]
  }

  /** The certificate manager and the application agree to everything but the late record. */
  const ANSWERS: Answers := Answers(r => r != LATE, r => true)

  lemma NothingEvicted(cfg: Config, t: Tail, now: int)
    requires Expired(cfg, t, now) == {}
    ensures Evicted(cfg, t, now) == {} && t - Evicted(cfg, t, now) == t
  {
  }

  lemma OnlyEvicted(cfg: Config, t: Tail, now: int, x: Name)
    requires Expired(cfg, t, now) == {x}
    requires forall n :: n in t ==> x !in t[n].record.pointers
    ensures Evicted(cfg, t, now) == {x}
  {
    EvictionComplete(cfg, t, now);
    EvictedLeast(cfg, t, now, {x});
  }

  /** The only waiting record is added and taken off the list. */
  lemma ResolvedInTwo(cfg: Config, run: seq<Node>, e: Event, answers: Answers, b: Node, c: Node, now: int)
    requires |run| > 0 && Step(cfg, run[|run| - 1], e, b) && Step(cfg, b, Forget(0), c)
    requires e.Resolve? && Heeds(cfg, run[|run| - 1], e, answers)
    requires |run[|run| - 1].stack| == 1 && run[|run| - 1].stack[0].record == e.r
    ensures Drains(cfg, run, answers, run + [b, c], now)
  {
    FollowsStep(cfg, run, answers, run, e, run + [b]);
    FollowsStep(cfg, run, answers, run + [b], Forget(0), run + [b, c]);
    ResolvedAccounted(cfg, run[|run| - 1], e, b, 0, c, now);
  }

  /** A record is received, added and taken off the list. */
  lemma ArrivesInThree(cfg: Config, run: seq<Node>, r: Record, at: int, e: Event, answers: Answers,
                       a: Node, b: Node, c: Node, now: int)
    requires |run| > 0 && Step(cfg, run[|run| - 1], Receive(r, at), a)
    requires e.Resolve? && Step(cfg, a, e, b) && Heeds(cfg, a, e, answers) && Step(cfg, b, Forget(0), c)
    requires |a.stack| == 1 && a.stack[0].record == e.r
    ensures Arrives(cfg, run, r, answers, run + [a] + [b, c], now)
  {
    ResolvedInTwo(cfg, run + [a], e, answers, b, c, now);
    ArrivesThen(cfg, run, r, at, a, answers, run + [a] + [b, c], now);
  }

  lemma ArrivesThen(cfg: Config, run: seq<Node>, r: Record, at: int, a: Node, answers: Answers,
                    longer: seq<Node>, now: int)
    requires |run| > 0 && Step(cfg, run[|run| - 1], Receive(r, at), a)
    requires Drains(cfg, run + [a], answers, longer, now)
    ensures Arrives(cfg, run, r, answers, longer, now)
  {
    assert longer[..|run| + 1] == run + [a];
  }

  lemma RunOfThree(cfg: Config, run: seq<Node>, a: Node, b: Node, c: Node)
    requires Run(cfg, run) && Next(cfg, run[|run| - 1], a) && Next(cfg, a, b) && Next(cfg, b, c)
    ensures Run(cfg, run + [a] + [b, c])
  {
    var longer := run + [a] + [b, c];
    forall i | 0 < i < |longer| ensures Next(cfg, longer[i - 1], longer[i]) {
      if i < |run| {
        assert Next(cfg, run[i - 1], run[i]);
      }
    }
  }

  lemma BootStep()
    ensures Step(CFG, EMPTY_NODE, Boot(ROOT, 0), S1())
  {
    var t := Insert(map[], ROOT, true, 0);
    assert Marks(t, ROOT.name) == {};
    assert Mark(t, {}, GenesisPrefix) == t && Prune(CFG, t, {}) == t;
    assert Expired(CFG, t, 0) == {};
    NothingEvicted(CFG, t, 0);
  }

  lemma ChildMarks()
    ensures NewMarks(S2(), CHILD, true, 0) == {ROOT.name}
  {
    var t := Insert(S2().tail, CHILD, true, 0);
    var u := Unmarked(t, CHILD.name);
    ReachesSelf(u, CHILD.name);
    assert Edge(u, CHILD.name, ROOT.name);
    ReachesStep(u, CHILD.name, CHILD.name, ROOT.name);
  }

  lemma ChildMarked()
    ensures MarkedTail(S2(), CHILD, true, 0) == S3().tail
  {
    ChildMarks();
    assert {} + {Peer(1)} == {Peer(1)};
    assert MarkedTail(S2(), CHILD, true, 0)[ROOT.name] == ENDORSED_ROOT;
  }

  lemma ChildSettles()
    ensures var t := S3().tail;
      Confirmed(CFG, t, {ROOT.name}) == {ROOT.name} && Remaining(CFG, t, {ROOT.name}, 0) == t
  {
  }

  lemma RootFires()
    ensures Fires(S3().log, S3().tail, {ROOT.name}) && Frontier([], S3().log) == []
  {
    assert S3().log[0].record.name == ROOT.name;
    assert S3().log[..0] == [];
  }

  lemma RootStored()
    ensures Store(S2().backend, S3().tail, {ROOT.name}) == S3().backend
    ensures S3().log[|S2().log|..] == S3().log
  {
  }

  lemma ChildConfirms()
    ensures Confirms(CFG, S2(), S3().tail, {ROOT.name}, S3())
  {
    ChildSettles();
    RootFires();
    RootStored();
  }

  lemma ChildEnabled()
    ensures Enabled(CFG, S2(), Resolve(CHILD, true, 0))
  {
    assert S2().stack[0].record == CHILD;
  }

  lemma ChildRecorded()
    ensures Recorded(S2(), CHILD, true, S3())
  {
  }

  lemma ChildRemains()
    ensures S3().tail == TailAfter(CFG, S2(), CHILD, true, 0, 0)
  {
    ChildMarks();
    ChildMarked();
    ChildSettles();
  }

  lemma ChildAdded()
    ensures Added(CFG, S2(), CHILD, true, 0, S3())
  {
    ChildMarks();
    ChildMarked();
    ChildConfirms();
    ChildRecorded();
    ChildRemains();
  }

  lemma ChildStep()
    ensures Step(CFG, S2(), Resolve(CHILD, true, 0), S3())
  {
    ChildEnabled();
    ChildAdded();
  }

  lemma LateEvicts()
    ensures Evicted(CFG, Insert(S5().tail, LATE, false, 100), 100) == {CHILD.name}
  {
    var t := Insert(S5().tail, LATE, false, 100);
    assert Expired(CFG, t, 100) == {CHILD.name};
    OnlyEvicted(CFG, t, 100, CHILD.name);
  }

  lemma LateMarked()
    ensures var t := Insert(S5().tail, LATE, false, 100);
      MarkedTail(S5(), LATE, false, 100) == t && Prune(CFG, t, {}) == t
  {
  }

  lemma LateRemains()
    ensures Remaining(CFG, Insert(S5().tail, LATE, false, 100), {}, 100) == S6().tail
  {
    LateMarked();
    LateEvicts();
  }

  lemma LateConfirms()
    ensures Confirms(CFG, S5(), Insert(S5().tail, LATE, false, 100), {}, S6())
  {
  }

  lemma LateEnabled()
    ensures Enabled(CFG, S5(), Resolve(LATE, false, 100))
  {
    assert S5().stack[0].record == LATE;
  }

  lemma LateStep()
    ensures Step(CFG, S5(), Resolve(LATE, false, 100), S6())
  {
    LateMarked();
    LateRemains();
    LateConfirms();
    LateEnabled();
  }

  lemma BootRuns()
    ensures Run(CFG, Booted()) && Boots(CFG, Booted()) && Queued(S1()) && Quiescent(S1())
  {
    BootStep();
    assert BootsAs(CFG, EMPTY_NODE, 0, S1());
  }

  lemma ChildFetches()
    requires Run(CFG, Booted())
    ensures Arrives(CFG, Booted(), CHILD, ANSWERS, ChildFetched(), 0)
    ensures Run(CFG, ChildFetched()) && Queued(S4()) && Quiescent(S4())
  {
    ChildStackSteps();
    ChildStep();
    ArrivesInThree(CFG, Booted(), CHILD, 0, Resolve(CHILD, true, 0), ANSWERS, S2(), S3(), S4(), 0);
    RunOfThree(CFG, Booted(), S2(), S3(), S4());
  }

  lemma ChildStackSteps()
    ensures Step(CFG, S1(), Receive(CHILD, 0), S2()) && Step(CFG, S3(), Forget(0), S4())
  {
  }

  lemma LateStackSteps()
    ensures Step(CFG, S4(), Receive(LATE, 100), S5()) && Step(CFG, S6(), Forget(0), S7())
  {
  }

  lemma LateFetches()
    requires Run(CFG, ChildFetched())
    ensures Arrives(CFG, ChildFetched(), LATE, ANSWERS, LateFetched(), 100)
    ensures Run(CFG, LateFetched()) && Queued(S7()) && Quiescent(S7())
  {
    LateStackSteps();
    LateStep();
    ArrivesInThree(CFG, ChildFetched(), LATE, 100, Resolve(LATE, false, 100), ANSWERS, S5(), S6(), S7(), 100);
    RunOfThree(CFG, ChildFetched(), S5(), S6(), S7());
  }

  lemma Uncovered()
    ensures !Covered(S7().tail)
  {
    assert ROOT.name in S7().tail && !CoveredAt(S7().tail, ROOT.name);
  }

  /**
   After an eviction the announced records may no longer cover the verified tail. The run is one the
   ledger makes: it starts with the genesis record and fetches two records, and before, between and
   after the two the waiting list is in order.
   */
  lemma EvictionUncovers()
    ensures CFG.Valid() && Run(CFG, LateFetched()) && Boots(CFG, Booted())
    ensures Arrives(CFG, Booted(), CHILD, ANSWERS, ChildFetched(), 0)
    ensures Arrives(CFG, ChildFetched(), LATE, ANSWERS, LateFetched(), 100)
    ensures Queued(S1()) && Quiescent(S1()) && Queued(S4()) && Quiescent(S4()) && Queued(S7()) && Quiescent(S7())
    ensures !Covered(S7().tail)
  {
    BootRuns();
    ChildFetches();
    LateFetches();
    Uncovered();
  }
}
