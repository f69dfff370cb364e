/** The rounds in which expired records and what points to them are evicted. */
module LedgerSweep {
  import opened Records
  import opened Dag
  import opened LedgerState
  import opened LedgerInvariant
  import opened LedgerTheorems
  import opened LedgerTiming

  /** Between rounds: what is gone or listed must go, and what points to the gone is listed. */
  ghost predicate Sweeping(cfg: Config, t: Tail, now: int, gone: set<Name>, listed: set<Name>) {
    && listed <= (t - gone).Keys
    && gone <= Evicted(cfg, t, now) && listed <= Evicted(cfg, t, now)
    && Expired(cfg, t, now) <= gone + listed
    && (forall n, p :: n in t && n !in gone && p in t[n].record.pointers && p in gone ==> n in listed)
  }

  lemma EvictionStarts(cfg: Config, t: Tail, now: int)
    ensures Sweeping(cfg, t, now, {}, Expired(cfg, t, now))
  {
    EvictionComplete(cfg, t, now);
  }

  lemma MinusTwice(t: Tail, a: set<Name>, b: set<Name>)
    ensures t - a - b == t - (a + b)
  {
  }

  lemma SweepOneRound(cfg: Config, t: Tail, now: int, gone: set<Name>, listed: set<Name>, children: set<Name>)
    requires Sweeping(cfg, t, now, gone, listed)
    requires var left := t - gone - listed;
      children == set n | n in left && exists p :: p in left[n].record.pointers && p in listed
    ensures Sweeping(cfg, t, now, gone + listed, children)
  {
    forall n | n in children ensures n in Evicted(cfg, t, now) {
      var p :| p in t[n].record.pointers && p in listed;
      EvictedDownward(t, Expired(cfg, t, now), n, p);
    }
  }

  lemma SweepTimes(cfg: Config, t: Tail, now: int)
    ensures forall n :: n in t - Evicted(cfg, t, now) && |t[n].refSet| < cfg.confirmWeight ==>
      t[n].addedTime >= now - cfg.confirmationTimeout
    ensures forall n :: n in t ==>
      (n !in t - Evicted(cfg, t, now) <==>
         exists x :: (x in t && Reaches(Held(t), n, x)
                      && |t[x].refSet| < cfg.confirmWeight && t[x].addedTime < now - cfg.confirmationTimeout))
  {
    forall n | n in t - Evicted(cfg, t, now) && |t[n].refSet| < cfg.confirmWeight
      ensures t[n].addedTime >= now - cfg.confirmationTimeout
    {
      EvictionLeavesNoneOverdue(cfg, t, now, n);
    }
  }

  lemma SweepEnds(cfg: Config, t: Tail, now: int, gone: set<Name>)
    requires Sweeping(cfg, t, now, gone, {})
    ensures gone == Evicted(cfg, t, now)
  {
    EvictedLeast(cfg, t, now, gone);
  }
}
