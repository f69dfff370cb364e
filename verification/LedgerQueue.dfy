/** Records that wait for their ancestors: what keeps them waiting, and that none waits in vain. */
module LedgerQueue {
  import opened Records
  import opened LedgerState
  import opened LedgerInvariant

  /** Waiting names are distinct and neither in the tail nor confirmed. */
  ghost predicate Queued(s: Node) {
    && (forall i, j :: 0 <= i < j < |s.stack| ==> s.stack[i].record.name != s.stack[j].record.name)
    && (forall i :: 0 <= i < |s.stack| ==> !Seen(s.tail, s.backend, s.stack[i].record.name))
  }

  /** No waiting record could be added right now. */
  ghost predicate Quiescent(s: Node) {
    forall i :: 0 <= i < |s.stack| ==> !Ready(s, s.stack[i].record)
  }

  lemma ReadyMeans(s: Node, r: Record)
    ensures Ready(s, r) <==>
      ((forall p :: p in r.pointers ==> if p in s.tail then s.tail[p].parentOk else p in s.backend)
       && (r.name.rtype == Certificate ==>
             forall n :: Some(n) in r.prevCerts ==> n in s.tail || n in s.backend))
  {
    if forall n :: Some(n) in r.prevCerts ==> Seen(s.tail, s.backend, n) {
      forall c | c in r.prevCerts && c.Some? ensures Seen(s.tail, s.backend, c.value) {
        assert Some(c.value) == c;
      }
    }
  }

  /** What a record may still wait for: a predecessor not usable, or a previous certificate not seen. */
  lemma WaitingLacks(s: Node, w: Waiting)
    requires Quiescent(s) && w in s.stack
    ensures
      || (exists p :: p in w.record.pointers && if p in s.tail then !s.tail[p].parentOk else p !in s.backend)
      || (w.record.name.rtype == Certificate
          && exists n :: Some(n) in w.record.prevCerts && n !in s.tail && n !in s.backend)
  {
    var i :| 0 <= i < |s.stack| && s.stack[i] == w;
    assert !Ready(s, s.stack[i].record);
    if forall p :: p in w.record.pointers ==> Has(s.tail, s.backend, p) {
      var c :| c in w.record.prevCerts && c.Some? && !Seen(s.tail, s.backend, c.value);
      assert Some(c.value) == c;
    }
  }

  /** Only the added record can become visible, and only it can become usable as a predecessor. */
  ghost predicate GainsOnly(s: Node, s': Node, n: Name) {
    && (forall x :: x != n && Seen(s'.tail, s'.backend, x) ==> Seen(s.tail, s.backend, x))
    && (forall x :: x != n && Has(s'.tail, s'.backend, x) ==> Has(s.tail, s.backend, x))
  }

  lemma OriginsGain(cfg: Config, s: Node, r: Record, endorsed: bool, s': Node)
    requires cfg.Valid() && Modest(s.tail) && Weighed(cfg, s.tail, s.backend)
    requires Origins(s, r, endorsed, s')
    ensures GainsOnly(s, s', r.name)
  {
  }

  lemma StepGains(cfg: Config, s: Node, e: Event, s': Node)
    requires cfg.Valid() && Sound(cfg, s.tail, s.backend)
    requires Adds(e) && Addable(s, e.r, Endorses(e)) && Step(cfg, s, e, s')
    ensures GainsOnly(s, s', e.r.name) && s'.stack == s.stack && s'.known == s.known[e.r.name := e.r]
  {
    AddedOrigins(cfg, s, e.r, Endorses(e), e.at, s');
    OriginsGain(cfg, s, e.r, Endorses(e), s');
  }

  /** The waiting list with one entry erased. */
  function Erased(stack: seq<Waiting>, i: nat): seq<Waiting>
    requires i < |stack|
  {
    stack[..i] + stack[i + 1..]
  }

  /** After a waiting record was added and erased, the others still wait unseen. */
  lemma ResolvedQueued(s: Node, s': Node, i: nat)
    requires Queued(s) && i < |s.stack| && s'.stack == Erased(s.stack, i)
    requires forall x :: x != s.stack[i].record.name && Seen(s'.tail, s'.backend, x) ==> Seen(s.tail, s.backend, x)
    ensures Queued(s')
  {
  }

  // ---- What becomes of a waiting record ------------------------------------------------------

  /** Waiting records were put on the list in the past. */
  ghost predicate Dated(s: Node) {
    forall w :: w in s.stack ==> w.since <= s.clock
  }

  /** Time and the count of insertions go on; an insertion gets the number that is next. */
  ghost predicate Later(s: Node, s': Node) {
    && s.clock <= s'.clock && s.births <= s'.births
    && forall n :: n in s.rank ==> n in s'.rank && (s'.rank[n] == s.rank[n] || s.births <= s'.rank[n])
  }

  lemma StepLater(cfg: Config, s: Node, e: Event, s': Node)
    requires Step(cfg, s, e, s')
    ensures Later(s, s') && (Dated(s) ==> Dated(s'))
  {
  }

  lemma LaterTransitive(s: Node, s': Node, s'': Node)
    requires Later(s, s') && Later(s', s'')
    ensures Later(s, s'')
  {
  }

  lemma {:induction false} RunLater(cfg: Config, run: seq<Node>, i: nat, j: nat)
    requires Run(cfg, run) && i <= j < |run|
    ensures Later(run[i], run[j]) && (Dated(run[i]) ==> Dated(run[j]))
    decreases j
  {
    if i < j {
      RunLater(cfg, run, i, j - 1);
      assert Next(cfg, run[j - 1], run[j]);
      var e :| Step(cfg, run[j - 1], e, run[j]);
      StepLater(cfg, run[j - 1], e, run[j]);
      LaterTransitive(run[i], run[j - 1], run[j]);
    }
  }

  lemma RunDated(cfg: Config, run: seq<Node>, i: nat)
    requires Run(cfg, run) && i < |run|
    ensures Dated(run[i])
  {
    RunLater(cfg, run, 0, i);
  }

  /** The name was inserted after that many insertions. */
  predicate InsertedSince(s: Node, births: nat, n: Name) {
    n in s.rank && births <= s.rank[n]
  }

  /**
   Where the waiting records of an earlier state went by the time `now`: each still waits, was
   inserted since, or had waited beyond the timeout.
   */
  ghost predicate Accounted(cfg: Config, s: Node, s': Node, now: int) {
    forall w :: w in s.stack ==>
      w in s'.stack || InsertedSince(s', s.births, w.record.name) || now - w.since > cfg.ancestorFetchTimeout
  }

  lemma ResolveInserts(cfg: Config, s: Node, e: Event, s': Node)
    requires e.Resolve? && Step(cfg, s, e, s')
    ensures s'.stack == s.stack && InsertedSince(s', s.births, e.r.name)
  {
  }

  lemma ForgetErases(cfg: Config, s: Node, i: nat, s': Node)
    requires Step(cfg, s, Forget(i), s')
    ensures i < |s.stack| && s'.stack == Erased(s.stack, i) && s'.rank == s.rank
  {
  }

  lemma ErasedAccounted(cfg: Config, s: Node, i: nat, s': Node, now: int)
    requires i < |s.stack| && s'.stack == Erased(s.stack, i)
    requires InsertedSince(s', s.births, s.stack[i].record.name) || now - s.stack[i].since > cfg.ancestorFetchTimeout
    ensures Accounted(cfg, s, s', now)
  {
  }

  /** A waiting record that was added and erased was inserted since. */
  lemma ResolvedAccounted(cfg: Config, s: Node, e: Event, middle: Node, i: nat, s': Node, now: int)
    requires i < |s.stack| && e.Resolve? && e.r == s.stack[i].record
    requires Step(cfg, s, e, middle) && Step(cfg, middle, Forget(i), s')
    ensures Accounted(cfg, s, s', now)
  {
    ResolveInserts(cfg, s, e, middle);
    ForgetErases(cfg, middle, i, s');
    ErasedAccounted(cfg, s, i, s', now);
  }

  lemma AccountedOn(cfg: Config, s: Node, s': Node, now': int, s'': Node, now'': int)
    requires Accounted(cfg, s, s', now') && Accounted(cfg, s', s'', now'')
    requires s.births <= s'.births && Later(s', s'') && now' <= now''
    ensures Accounted(cfg, s, s'', now'')
  {
  }

  /** A name that nothing held or waiting mentions. */
  ghost predicate Unmentioned(s: Node, n: Name) {
    && !Seen(s.tail, s.backend, n) && n !in s.known && n !in s.lastCerts
    && forall i :: 0 <= i < |s.stack| ==>
         && s.stack[i].record.name != n
         && n !in s.stack[i].record.pointers
         && Some(n) !in s.stack[i].record.prevCerts
  }

  /** Adding a record nothing waits for leaves every waiting record waiting. */
  lemma CreateQuiescent(s: Node, s': Node, n: Name)
    requires Queued(s) && Quiescent(s) && Unmentioned(s, n)
    requires GainsOnly(s, s', n) && s'.stack == s.stack
    ensures Queued(s') && Quiescent(s')
  {
  }
}
