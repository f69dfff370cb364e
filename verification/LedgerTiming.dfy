/** What the clock does to the tail: which records time out, which stay, and when they count as added. */
module LedgerTiming {
  import opened Records
  import opened Dag
  import opened LedgerState
  import opened LedgerInvariant
  import opened LedgerTheorems

  /** Eviction takes a record exactly when it leads to an unconfirmed one past the confirmation timeout. */
  lemma EvictedIffOverdue(cfg: Config, t: Tail, now: int, n: Name)
    requires n in t
    ensures n in Evicted(cfg, t, now) <==>
      exists x :: x in t && Reaches(Held(t), n, x)
        && |t[x].refSet| < cfg.confirmWeight && t[x].addedTime < now - cfg.confirmationTimeout
  {
  }

  lemma EvictionLeavesNoneOverdue(cfg: Config, t: Tail, now: int, n: Name)
    requires n in t && n !in Evicted(cfg, t, now) && |t[n].refSet| < cfg.confirmWeight
    ensures t[n].addedTime >= now - cfg.confirmationTimeout
  {
    ReachesSelf(Held(t), n);
  }

  /** A surviving record keeps the time it was added at, and an added one gets the time of its addition. */
  lemma TimesKept(cfg: Config, s: Node, r: Record, endorsed: bool, at: int, now: int, n: Name)
    requires n in TailAfter(cfg, s, r, endorsed, at, now)
    ensures n == r.name || n in s.tail
    ensures TailAfter(cfg, s, r, endorsed, at, now)[n].addedTime == if n == r.name then at else s.tail[n].addedTime
  {
  }

  lemma NoneOverdueAfter(cfg: Config, s: Node, r: Record, endorsed: bool, at: int, now: int, n: Name)
    requires n in TailAfter(cfg, s, r, endorsed, at, now)
    requires |TailAfter(cfg, s, r, endorsed, at, now)[n].refSet| < cfg.confirmWeight
    ensures TailAfter(cfg, s, r, endorsed, at, now)[n].addedTime >= now - cfg.confirmationTimeout
  {
    var pruned := Prune(cfg, MarkedTail(s, r, endorsed, at), NewMarks(s, r, endorsed, at));
    EvictionLeavesNoneOverdue(cfg, pruned, now, n);
  }

  /** After every addition no tail record is both unconfirmed and past the confirmation timeout. */
  lemma NoneOverdue(cfg: Config, states: seq<Node>, events: seq<Event>, i: nat, n: Name)
    requires RunBy(cfg, states, events) && 0 < i < |states| && Adds(events[i])
    requires n in states[i].tail && |states[i].tail[n].refSet| < cfg.confirmWeight
    ensures states[i].tail[n].addedTime >= states[i].clock - cfg.confirmationTimeout
  {
    var s, e := states[i - 1], events[i];
    assert Step(cfg, s, e, states[i]);
    NoneOverdueAfter(cfg, s, e.r, Endorses(e), e.at, states[i].clock, n);
  }

  /** Among the records of the old tail, marking and inserting make no new ways. */
  lemma OldWays(s: Node, r: Record, endorsed: bool, at: int, n: Name, x: Name)
    requires Linked(s.tail, s.backend) && Interlock(r) && !Seen(s.tail, s.backend, r.name)
    requires n in s.tail && Reaches(Held(MarkedTail(s, r, endorsed, at)), n, x)
    ensures x in s.tail && Reaches(Held(s.tail), n, x)
  {
    var t, g := Held(s.tail), Held(MarkedTail(s, r, endorsed, at));
    UnseenUnlinked(s, r);
    var met := set y | y in s.tail && Reaches(t, n, y);
    ReachesSelf(t, n);
    forall a, b | a in met && Edge(g, a, b) ensures b in met {
      assert Edge(t, a, b);
      ReachesStep(t, n, a, b);
    }
    ReachesInto(g, n, x, met);
  }

  lemma MarkingKeeps(cfg: Config, s: Node, r: Record, endorsed: bool, at: int, x: Name)
    requires cfg.Valid() && Sound(cfg, s.tail, s.backend) && Addable(s, r, endorsed) && x in s.tail
    ensures var marked := MarkedTail(s, r, endorsed, at);
      x in marked && marked[x].addedTime == s.tail[x].addedTime && |marked[x].refSet| >= |s.tail[x].refSet|
  {
    var t, marks, marked, pruned := Stages(cfg, s, r, endorsed, at);
    GrowsKeeps(t, marked, marks, x);
  }

  lemma GrowsKeeps(t: Tail, marked: Tail, marks: set<Name>, x: Name)
    requires Grows(t, marked, marks) && x in t
    ensures |marked[x].refSet| >= |t[x].refSet|
  {
  }

  lemma FreshReached(cfg: Config, s: Node, r: Record, endorsed: bool, at: int, now: int, n: Name, x: Name)
    requires cfg.Valid() && Sound(cfg, s.tail, s.backend) && Addable(s, r, endorsed) && n in s.tail
    requires x in s.tail && Reaches(Held(s.tail), n, x) ==>
      s.tail[x].addedTime >= now - cfg.confirmationTimeout || |s.tail[x].refSet| >= cfg.confirmWeight
    requires Reaches(Held(MarkedTail(s, r, endorsed, at)), n, x)
    ensures x !in Expired(cfg, MarkedTail(s, r, endorsed, at), now)
  {
    OldWays(s, r, endorsed, at, n, x);
    MarkingKeeps(cfg, s, r, endorsed, at, x);
  }

  /**
   A record is not evicted if everything it leads to in the tail was added recently enough or is
   confirmed: it stays in the tail, or is in the backend.
   */
  lemma KeptUnlessOverdue(cfg: Config, s: Node, r: Record, endorsed: bool, at: int, now: int, n: Name)
    requires cfg.Valid() && Sound(cfg, s.tail, s.backend) && Addable(s, r, endorsed) && n in s.tail
    requires forall x :: x in s.tail && Reaches(Held(s.tail), n, x) ==>
      s.tail[x].addedTime >= now - cfg.confirmationTimeout || |s.tail[x].refSet| >= cfg.confirmWeight
    ensures n in TailAfter(cfg, s, r, endorsed, at, now) || n in BackendAfter(cfg, s, r, endorsed, at)
  {
    var marked := MarkedTail(s, r, endorsed, at);
    forall x | Reaches(Held(marked), n, x) ensures x !in Expired(cfg, marked, now) {
      FreshReached(cfg, s, r, endorsed, at, now, n, x);
    }
    Departures(cfg, s, r, endorsed, at, now, n);
  }
}
