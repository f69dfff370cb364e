/** Confirming one updated record after the other, in any order: what the loop keeps. */
module LedgerConfirm {
  import opened Records
  import opened LedgerState

  /** Some record about to be confirmed is not flagged verified yet. */
  ghost predicate Flips(t: Tail, fired: set<Name>) {
    exists n :: n in fired && n in t && !t[n].parentOk
  }

  function SettleOne(cfg: Config, t: Tail, n: Name): Tail
    requires n in t
  {
    var flagged := if |t[n].refSet| == cfg.confirmWeight then t[n := t[n].(parentOk := true)] else t;
    if |t[n].refSet| >= cfg.RemoveWeight() then flagged - {n} else flagged
  }

  lemma PruneOneMore(cfg: Config, t: Tail, done: set<Name>, n: Name)
    requires n in t && n !in done
    ensures n in Prune(cfg, t, done) && Prune(cfg, t, done)[n] == t[n]
    ensures Prune(cfg, t, done + {n}) == SettleOne(cfg, Prune(cfg, t, done), n)
  {
  }

  lemma FiresOneMore(t: Tail, fired: set<Name>, log: seq<Confirmation>, n: Name)
    requires n in t && n !in fired && t[n].record.name == n && Fires(log, t, fired)
    ensures Fires(log + [Confirmation(t[n].record, t[n].refSet)], t, fired + {n})
  {
    var longer := log + [Confirmation(t[n].record, t[n].refSet)];
    assert longer[|log|].record.name == n;
    forall m | m in fired ensures exists i :: 0 <= i < |longer| && longer[i].record.name == m {
      var i :| 0 <= i < |log| && log[i].record.name == m;
      assert longer[i].record.name == m;
    }
  }

  lemma StoreOneMore(t: Tail, fired: set<Name>, n: Name, backend: map<Name, Record>)
    requires n in t
    ensures Store(backend, t, fired)[n := t[n].record] == Store(backend, t, fired + {n})
  {
  }

  lemma FlipsOneMore(t: Tail, fired: set<Name>, n: Name)
    requires n in t
    ensures Flips(t, fired + {n}) <==> Flips(t, fired) || !t[n].parentOk
  {
  }

  lemma ConfirmOneMore(cfg: Config, t: Tail, done: set<Name>, n: Name)
    requires n in t && |t[n].refSet| == cfg.confirmWeight
    ensures Confirmed(cfg, t, done + {n}) == Confirmed(cfg, t, done) + {n}
  {
  }

  lemma ConfirmNoMore(cfg: Config, t: Tail, done: set<Name>, n: Name)
    requires n in t && |t[n].refSet| != cfg.confirmWeight
    ensures Confirmed(cfg, t, done + {n}) == Confirmed(cfg, t, done)
  {
  }

  lemma LogOneMore(latest: seq<Name>, log: seq<Confirmation>, c: Confirmation)
    ensures Frontier(latest, log + [c]) == Supersede(Frontier(latest, log), c.record)
    ensures Reported(log + [c]) == Reported(log) + Reports(c.record)
  {
    assert (log + [c])[..|log|] == log;
  }

  // ---- How far confirming has come ----------------------------------------------------------

  /** What confirming the fired records leads to, in some order. */
  ghost predicate ConfirmedSoFar(t: Tail, fired: set<Name>, log: seq<Confirmation>,
                          stored: map<Name, Record>, latest: seq<Name>, told: seq<Report>,
                          backend: map<Name, Record>, lastCerts: seq<Name>, reported: seq<Report>, needUpdate: bool) {
    && backend == Store(stored, t, fired)
    && Fires(log, t, fired)
    && lastCerts == Frontier(latest, log)
    && reported == told + Reported(log)
    && (needUpdate <==> Flips(t, fired))
  }

  lemma ConfirmedOneMore(t: Tail, fired: set<Name>, n: Name, log: seq<Confirmation>,
                       stored: map<Name, Record>, latest: seq<Name>, told: seq<Report>,
                       backend: map<Name, Record>, lastCerts: seq<Name>, reported: seq<Report>, needUpdate: bool)
    requires ConfirmedSoFar(t, fired, log, stored, latest, told, backend, lastCerts, reported, needUpdate)
    requires n in t && n !in fired && t[n].record.name == n
    ensures ConfirmedSoFar(t, fired + {n}, log + [Confirmation(t[n].record, t[n].refSet)], stored, latest, told,
                    backend[n := t[n].record], Supersede(lastCerts, t[n].record), reported + Reports(t[n].record),
                    needUpdate || !t[n].parentOk)
  {
    StoreOneMore(t, fired, n, stored);
    FiresOneMore(t, fired, log, n);
    FlipsOneMore(t, fired, n);
    LogOneMore(latest, log, Confirmation(t[n].record, t[n].refSet));
  }

  /** How far confirming has come when the records in `done` are settled. */
  ghost predicate Progress(cfg: Config, t: Tail, done: set<Name>, log: seq<Confirmation>,
                           stored: map<Name, Record>, latest: seq<Name>, told: seq<Report>, tail: Tail,
                           backend: map<Name, Record>, lastCerts: seq<Name>, reported: seq<Report>, needUpdate: bool) {
    && tail == Prune(cfg, t, done)
    && ConfirmedSoFar(t, Confirmed(cfg, t, done), log, stored, latest, told, backend, lastCerts, reported, needUpdate)
  }

  lemma ProgressFired(cfg: Config, t: Tail, done: set<Name>, n: Name, log: seq<Confirmation>,
                      stored: map<Name, Record>, latest: seq<Name>, told: seq<Report>, tail: Tail,
                      backend: map<Name, Record>, lastCerts: seq<Name>, reported: seq<Report>, needUpdate: bool)
    requires Progress(cfg, t, done, log, stored, latest, told, tail, backend, lastCerts, reported, needUpdate)
    requires n in t && n !in done && t[n].record.name == n && |t[n].refSet| == cfg.confirmWeight
    ensures Progress(cfg, t, done + {n}, log + [Confirmation(t[n].record, t[n].refSet)], stored, latest, told,
                     Prune(cfg, t, done + {n}), backend[n := t[n].record], Supersede(lastCerts, t[n].record),
                     reported + Reports(t[n].record), needUpdate || !t[n].parentOk)
  {
    var fired := Confirmed(cfg, t, done);
    ConfirmedOneMore(t, fired, n, log, stored, latest, told, backend, lastCerts, reported, needUpdate);
    ConfirmOneMore(cfg, t, done, n);
  }
}
