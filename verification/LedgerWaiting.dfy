/** Going over the waiting records: the answers heeded on the way and what becomes of each record. */
module LedgerWaiting {
  import opened Records
  import opened LedgerState
  import opened LedgerQueue
  import opened LedgerSteps

  // ---- One pass -----------------------------------------------------------------------------

  function Abs(x: int): (r: nat)
    ensures r == x || r == -x
  {
    if x < 0 then -x else x
  }

  /** No listed record had waited too long at the given time. */
  ghost predicate InTime(cfg: Config, stack: seq<Waiting>, now: int) {
    forall w :: w in stack ==> now <= w.since + cfg.ancestorFetchTimeout
  }

  /** How far one pass over a waiting list has come when the first i entries of what is left are dealt with. */
  ghost predicate Passed(cfg: Config, stack: seq<Waiting>, s: Node, i: nat, begun: int) {
    && i <= |s.stack| <= |stack|
    && (forall w :: w in s.stack ==> w in stack)
    && (|s.stack| == |stack| ==> forall j :: 0 <= j < i ==> !Ready(s, s.stack[j].record))
    && InTime(cfg, s.stack[..i], begun)
  }

  lemma PassedErased(cfg: Config, stack: seq<Waiting>, s: Node, i: nat, begun: int, s': Node)
    requires Passed(cfg, stack, s, i, begun) && i < |s.stack| && s'.stack == Erased(s.stack, i)
    ensures Passed(cfg, stack, s', i, begun)
  {
    assert s'.stack[..i] == s.stack[..i];
  }

  lemma PassedKept(cfg: Config, stack: seq<Waiting>, s: Node, i: nat, begun: int, now: int)
    requires Passed(cfg, stack, s, i, begun) && i < |s.stack| && !Ready(s, s.stack[i].record)
    requires begun <= now && Abs(now - s.stack[i].since) <= cfg.ancestorFetchTimeout
    ensures Passed(cfg, stack, s, i + 1, begun)
  {
    assert s.stack[..i + 1] == s.stack[..i] + [s.stack[i]];
  }

  lemma PassedAll(cfg: Config, stack: seq<Waiting>, s: Node, i: nat, begun: int)
    requires Passed(cfg, stack, s, i, begun) && i == |s.stack|
    ensures |s.stack| == |stack| ==> Quiescent(s)
    ensures InTime(cfg, s.stack, begun)
  {
    assert s.stack[..i] == s.stack;
  }

  // ---- Steps that heed the answers ----------------------------------------------------------

  /**
   What the certificate manager and the application say about endorsing a record during one call;
   each record is asked about at most once in a call.
   */
  datatype Answers = Answers(signs: Record -> bool, approves: Record -> bool)

  /** If the event resolves a record, it endorses it exactly on positive answers and the contribution policy. */
  predicate Heeds(cfg: Config, s: Node, e: Event, answers: Answers) {
    e.Resolve? ==> (e.endorsed <==> answers.signs(e.r) && answers.approves(e.r) && ContributionOk(cfg, s.tail, e.r))
  }

  /** One waiting record was added, as answered, or given up. */
  ghost predicate Answered(cfg: Config, s: Node, answers: Answers, s': Node) {
    exists e: Event :: (e.Resolve? || e.Forget?) && Step(cfg, s, e, s') && Heeds(cfg, s, e, answers)
  }

  /** The longer run goes on from the first by steps that heed the answers. */
  ghost predicate Follows(cfg: Config, run: seq<Node>, answers: Answers, longer: seq<Node>) {
    && 0 < |run| && run <= longer
    && AnsweredBetween(cfg, longer, answers, |run|, |longer|)
  }

  ghost predicate AnsweredBetween(cfg: Config, longer: seq<Node>, answers: Answers, first: nat, end: nat)
    requires 0 < first && end <= |longer|
  {
    forall k: nat {:trigger AnsweredAt(cfg, longer, answers, k)} ::
      first <= k < end ==> AnsweredAt(cfg, longer, answers, k)
  }

  ghost predicate AnsweredAt(cfg: Config, longer: seq<Node>, answers: Answers, k: nat)
    requires 0 < k < |longer|
  {
    Answered(cfg, longer[k - 1], answers, longer[k])
  }

  lemma StepAnswered(cfg: Config, before: seq<Node>, e: Event, answers: Answers, after: seq<Node>)
    requires Steps(cfg, before, e, after) && Heeds(cfg, before[|before| - 1], e, answers)
    requires e.Resolve? || e.Forget?
    ensures before <= after && |after| == |before| + 1
    ensures AnsweredAt(cfg, after, answers, |before|)
  {
    assert Answered(cfg, before[|before| - 1], answers, after[|before|]);
  }

  lemma FollowsOne(cfg: Config, before: seq<Node>, answers: Answers, after: seq<Node>)
    requires 0 < |before| && before <= after && |after| == |before| + 1 && AnsweredAt(cfg, after, answers, |before|)
    ensures Follows(cfg, before, answers, after)
  {
  }

  lemma AnsweredCarries(cfg: Config, before: seq<Node>, answers: Answers, after: seq<Node>, k: nat)
    requires 0 < k < |before| && before <= after && AnsweredAt(cfg, before, answers, k)
    ensures AnsweredAt(cfg, after, answers, k)
  {
    assert after[k - 1] == before[k - 1] && after[k] == before[k];
  }

  lemma BetweenCarries(cfg: Config, before: seq<Node>, answers: Answers, after: seq<Node>, first: nat)
    requires 0 < first && before <= after && AnsweredBetween(cfg, before, answers, first, |before|)
    ensures AnsweredBetween(cfg, after, answers, first, |before|)
  {
    forall k: nat | first <= k < |before| ensures AnsweredAt(cfg, after, answers, k) {
      AnsweredCarries(cfg, before, answers, after, k);
    }
  }

  lemma BetweenJoins(cfg: Config, longer: seq<Node>, answers: Answers, first: nat, middle: nat, end: nat)
    requires 0 < first <= middle <= end <= |longer|
    requires AnsweredBetween(cfg, longer, answers, first, middle) && AnsweredBetween(cfg, longer, answers, middle, end)
    ensures AnsweredBetween(cfg, longer, answers, first, end)
  {
  }

  lemma PrefixTransitive<T>(a: seq<T>, b: seq<T>, c: seq<T>)
    requires a <= b && b <= c
    ensures a <= c
  {
  }

  /** An event that adds a waiting record verifies it exactly if it endorses it. */
  lemma ResolveVerifies(cfg: Config, s: Node, e: Event, s': Node)
    requires e.Resolve? && Step(cfg, s, e, s')
    ensures Waits(s, e.r) && s'.known == s.known[e.r.name := e.r] && s'.rank == s.rank[e.r.name := s.births]
    ensures s'.verified == if e.endorsed then s.verified + {e.r.name} else s.verified
  {
  }

  lemma ForgetVerifiesNone(cfg: Config, s: Node, e: Event, s': Node)
    requires e.Forget? && Step(cfg, s, e, s')
    ensures s'.verified == s.verified && s'.births == s.births
  {
  }

  lemma HeedsExactly(cfg: Config, s: Node, e: Event, answers: Answers)
    requires e.Resolve? && Heeds(cfg, s, e, answers)
    ensures e.endorsed <==>
      (answers.signs(e.r) && answers.approves(e.r)
       && forall p :: p in e.r.pointers ==> p in s.tail && |s.tail[p].refSet| <= cfg.contributionWeight)
  {
  }

  /**
   Only a waiting record that the certificate manager and the application agree to, and whose
   predecessors are all in the tail and light enough, becomes verified on the way.
   */
  lemma AnsweredVerifies(cfg: Config, s: Node, answers: Answers, s': Node, n: Name) returns (r: Record)
    requires Answered(cfg, s, answers, s') && n in s'.verified && n !in s.verified
    ensures r.name == n && Waits(s, r)
    ensures answers.signs(r) && answers.approves(r)
    ensures forall p :: p in r.pointers ==> p in s.tail && |s.tail[p].refSet| <= cfg.contributionWeight
  {
    var e: Event :| (e.Resolve? || e.Forget?) && Step(cfg, s, e, s') && Heeds(cfg, s, e, answers);
    if e.Forget? {
      ForgetVerifiesNone(cfg, s, e, s');
    }
    ResolveVerifies(cfg, s, e, s');
    HeedsExactly(cfg, s, e, answers);
    r := e.r;
  }

  /** And whenever a record is added on the way, being such a record suffices for becoming verified. */
  lemma AnsweredSuffices(cfg: Config, s: Node, answers: Answers, s': Node) returns (r: Record)
    requires Answered(cfg, s, answers, s') && s.births < s'.births
    ensures Waits(s, r) && s'.known == s.known[r.name := r] && s'.rank == s.rank[r.name := s.births]
    ensures
      answers.signs(r) && answers.approves(r)
      && (forall p :: p in r.pointers ==> p in s.tail && |s.tail[p].refSet| <= cfg.contributionWeight)
      ==> r.name in s'.verified
  {
    var e: Event :| (e.Resolve? || e.Forget?) && Step(cfg, s, e, s') && Heeds(cfg, s, e, answers);
    if e.Forget? {
      ForgetVerifiesNone(cfg, s, e, s');
    }
    ResolveVerifies(cfg, s, e, s');
    HeedsExactly(cfg, s, e, answers);
    r := e.r;
  }

  lemma FollowsOn(cfg: Config, run: seq<Node>, before: seq<Node>, answers: Answers, after: seq<Node>)
    requires Follows(cfg, run, answers, before) && Follows(cfg, before, answers, after)
    ensures Follows(cfg, run, answers, after)
  {
    PrefixTransitive(run, before, after);
    BetweenCarries(cfg, before, answers, after, |run|);
    BetweenJoins(cfg, after, answers, |run|, |before|, |after|);
  }

  /** One more step after nothing but answered ones. */
  lemma FollowsStep(cfg: Config, run: seq<Node>, answers: Answers, before: seq<Node>, e: Event, after: seq<Node>)
    requires Follows(cfg, run, answers, before) && Steps(cfg, before, e, after)
    requires (e.Resolve? || e.Forget?) && Heeds(cfg, before[|before| - 1], e, answers)
    ensures Follows(cfg, run, answers, after)
  {
    StepAnswered(cfg, before, e, answers, after);
    FollowsOne(cfg, before, answers, after);
    FollowsOn(cfg, run, before, answers, after);
  }

  // ---- Accounting for every record ----------------------------------------------------------

  /** The longer run goes on with the waiting records and accounts for each of them at the time `now`. */
  ghost predicate Drains(cfg: Config, run: seq<Node>, answers: Answers, longer: seq<Node>, now: int) {
    Follows(cfg, run, answers, longer) && Accounted(cfg, run[|run| - 1], longer[|longer| - 1], now)
  }

  lemma DrainsOn(cfg: Config, run: seq<Node>, before: seq<Node>, now: int, answers: Answers,
                 after: seq<Node>, now': int)
    requires Drains(cfg, run, answers, before, now) && Drains(cfg, before, answers, after, now')
    requires Run(cfg, after) && now <= now'
    ensures Drains(cfg, run, answers, after, now')
  {
    FollowsOn(cfg, run, before, answers, after);
    RunLater(cfg, after, |run| - 1, |before| - 1);
    RunLater(cfg, after, |before| - 1, |after| - 1);
    AccountedOn(cfg, run[|run| - 1], before[|before| - 1], now, after[|after| - 1], now');
  }

  /** A resolved and erased record leaves an answered run and a proper waiting list. */
  lemma ResolvedFollows(cfg: Config, before: seq<Node>, e: Event, middle: seq<Node>, i: nat, answers: Answers,
                        after: seq<Node>)
    requires cfg.Valid() && Run(cfg, before) && Queued(before[|before| - 1]) && i < |before[|before| - 1].stack|
    requires e.Resolve? && e.r == before[|before| - 1].stack[i].record && Heeds(cfg, before[|before| - 1], e, answers)
    requires Steps(cfg, before, e, middle) && Steps(cfg, middle, Forget(i), after)
    ensures Follows(cfg, before, answers, after) && Queued(after[|after| - 1])
  {
    ResolveGains(cfg, before, e, middle[|middle| - 1]);
    FollowsStep(cfg, before, answers, before, e, middle);
    FollowsStep(cfg, before, answers, middle, Forget(i), after);
    ResolvedQueued(before[|before| - 1], after[|after| - 1], i);
  }

  lemma ResolvedDrains(cfg: Config, before: seq<Node>, e: Event, middle: seq<Node>, i: nat, answers: Answers,
                       after: seq<Node>, now: int)
    requires cfg.Valid() && Run(cfg, before) && Queued(before[|before| - 1]) && i < |before[|before| - 1].stack|
    requires e.Resolve? && e.r == before[|before| - 1].stack[i].record && Heeds(cfg, before[|before| - 1], e, answers)
    requires Steps(cfg, before, e, middle) && Steps(cfg, middle, Forget(i), after)
    ensures Drains(cfg, before, answers, after, now) && Queued(after[|after| - 1])
  {
    ResolvedFollows(cfg, before, e, middle, i, answers, after);
    ResolvedAccounted(cfg, before[|before| - 1], e, middle[|middle| - 1], i, after[|after| - 1], now);
  }

  // ---- A record arrives ---------------------------------------------------------------------

  /** The record names n as a predecessor or as a previous certificate record. */
  predicate Mentions(r: Record, n: Name) {
    n in r.pointers || (r.name.rtype == Certificate && Some(n) in r.prevCerts)
  }

  /**
   The longer run starts by putting r on the waiting list and goes on with the waiting records,
   accounting for r and for everything that waited before.
   */
  ghost predicate Arrives(cfg: Config, run: seq<Node>, r: Record, answers: Answers, longer: seq<Node>, now: int) {
    && 0 < |run| < |longer| && run <= longer
    && (exists at :: Step(cfg, run[|run| - 1], Receive(r, at), longer[|run|]))
    && Drains(cfg, longer[..|run| + 1], answers, longer, now)
  }

  /** Everything wanted is usable, what was seen still is, and no predecessor is unverified in the tail. */
  ghost predicate Provides(s: Node, t: Tail, backend: map<Name, Record>, r: Record, wanted: seq<Name>) {
    && (forall n :: n in wanted ==> Has(s.tail, s.backend, n))
    && (forall n :: n in t || n in backend ==> n in s.tail || n in s.backend)
    && (forall p :: p in r.pointers && p in s.tail ==> s.tail[p].parentOk)
  }

  /**
   The wanted names are what r waits for when tail and backend are as given: providing them makes it
   ready, and each of them alone, while unseen, keeps it from being so.
   */
  ghost predicate Awaited(t: Tail, backend: map<Name, Record>, r: Record, wanted: seq<Name>) {
    && (forall s: Node :: Provides(s, t, backend, r, wanted) ==> Ready(s, r))
    && (forall s: Node, n :: n in wanted && !Seen(s.tail, s.backend, n) ==> !Ready(s, r))
    && (forall n :: n in wanted ==> n !in t && n !in backend)
  }

  lemma MissingAwaited(t: Tail, backend: map<Name, Record>, r: Record, wanted: seq<Name>)
    requires forall n :: n in wanted <==> Mentions(r, n) && !Seen(t, backend, n)
    ensures Awaited(t, backend, r, wanted)
  {
    forall s: Node | Provides(s, t, backend, r, wanted) ensures Ready(s, r) {
      forall c | r.name.rtype == Certificate && c in r.prevCerts && c.Some? ensures Seen(s.tail, s.backend, c.value) {
        assert Mentions(r, c.value);
      }
      forall p | p in r.pointers ensures Has(s.tail, s.backend, p) {
        assert Mentions(r, p);
      }
    }
    forall s: Node, n | n in wanted && !Seen(s.tail, s.backend, n) ensures !Ready(s, r) {
      assert Mentions(r, n);
    }
  }

  lemma PushedQueued(s: Node, s': Node, r: Record, at: int)
    requires Queued(s) && !Seen(s.tail, s.backend, r.name)
    requires forall i :: 0 <= i < |s.stack| ==> s.stack[i].record.name != r.name
    requires s' == s.(stack := s.stack + [Waiting(r, at)], known := s'.known, clock := s'.clock)
    ensures Queued(s')
  {
  }

  lemma PushedQuiescent(s: Node, s': Node, r: Record, at: int, missing: Name)
    requires Quiescent(s) && Mentions(r, missing) && !Seen(s.tail, s.backend, missing)
    requires s' == s.(stack := s.stack + [Waiting(r, at)], known := s'.known, clock := s'.clock)
    ensures Quiescent(s')
  {
  }
}
