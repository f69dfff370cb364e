/**
 The ledger engine of one peer: its mutable fields and the loops that work on them. Each public
 operation is tied to the declarative steps of LedgerState.dfy by the ghost field `run`, which
 records every state the object went through.
 */
module LedgerEngine {
  import opened Records
  import opened Dag
  import opened LedgerState
  import opened LedgerInvariant
  import opened LedgerTheorems
  import opened LedgerQueue
  import opened CertFrontier
  import opened LedgerSteps
  import opened LedgerSearch
  import opened LedgerConfirm
  import opened LedgerSweep
  import opened LedgerWaiting
  import opened LedgerListing

  class LedgerImpl {
    const cfg: Config
    const naming: Naming
    const store: Backend.Backend<Record>
    var tail: Tail
    var syncStack: seq<Waiting>
    var lastCerts: seq<Name>
    var clock: int
    var reported: seq<Report>  // the calls made to the certificate manager and the application
    ghost var backend: map<Name, Record>  // what the store holds
    ghost var run: seq<Node>

    ghost function Now(): Node
      requires |run| > 0
      reads this
    {
      run[|run| - 1]
    }

    /** The store holds exactly the confirmed records. */
    ghost predicate Stored()
      reads this`backend, store
    {
      naming.Valid() && store.Valid() && Mirrors(store.entries, backend, naming)
    }

    /** The fields show the last state of a run of this peer. */
    ghost predicate Traced()
      reads this, store
    {
      && Stored()
      && cfg.Valid()
      && Run(cfg, run)
      && Now().tail == tail && Now().backend == backend && Now().stack == syncStack
      && Now().lastCerts == lastCerts && Now().clock <= clock
      && reported == Reported(Now().log)
    }

    /** Between operations, moreover, no waiting record is ready to be added. */
    ghost predicate Valid()
      reads this, store
    {
      Traced() && Queued(Now()) && Quiescent(Now())
    }

    constructor Empty(cfg: Config, naming: Naming)
      requires cfg.Valid() && naming.Valid()
      ensures this.cfg == cfg && this.naming == naming && fresh(store)
      ensures Traced() && run == [EMPTY_NODE]
    {
      this.cfg, this.naming := cfg, naming;
      store := new Backend.Backend();
      tail, backend, syncStack, lastCerts, clock, reported := map[], map[], [], [], 0, [];
      run := [EMPTY_NODE];
    }

    /** Time passes between two readings of the clock, by an amount nobody controls. */
    method ReadClock() returns (now: int)
      modifies this`clock
      ensures now == clock && old(clock) <= clock
    {
      var passed: int := *;
      if passed > 0 {
        clock := clock + passed;
      }
      now := clock;
    }

    // ---- Lookups -------------------------------------------------------------------------------

    method SeenRecord(n: Name) returns (seen: bool)
      requires Stored()
      ensures seen <==> Seen(tail, backend, n)
      ensures seen <==> n in tail || n in backend
    {
      if n in tail {
        return true;
      }
      var stored := store.GetRecord(naming.path(n));
      MirroredLookup(store.entries, backend, naming, n, stored);
      return stored.Some?;
    }

    method HasRecord(n: Name) returns (has: bool)
      requires Stored()
      ensures has <==> Has(tail, backend, n)
      ensures has <==> if n in tail then tail[n].parentOk else n in backend
    {
      if n in tail {
        return tail[n].parentOk;
      }
      var stored := store.GetRecord(naming.path(n));
      MirroredLookup(store.entries, backend, naming, n, stored);
      return stored.Some?;
    }

    /** Between operations what is found is what was obtained under the name. */
    lemma TracedLookup(n: Name)
      ensures Traced() ==> (Lookup(tail, backend, n).Some? <==> Has(tail, backend, n))
      ensures Traced() && Lookup(tail, backend, n).Some? ==>
        n in Now().known && Lookup(tail, backend, n).value == Now().known[n]
    {
      if Traced() {
        LookupFinds(cfg, run, |run| - 1, n);
      }
    }

    method GetRecord(n: Name) returns (found: Option<Record>)
      requires Stored()
      ensures found == Lookup(tail, backend, n)
      ensures n in tail ==> found == if tail[n].parentOk then Some(tail[n].record) else None
      ensures n !in tail ==> found == if n in backend then Some(backend[n]) else None
      ensures Traced() ==> (found.Some? <==> Has(tail, backend, n))
      ensures Traced() && found.Some? ==> n in Now().known && found.value == Now().known[n]
    {
      if n in tail {
        TracedLookup(n);
        return if tail[n].parentOk then Some(tail[n].record) else None;
      }
      found := store.GetRecord(naming.path(n));
      MirroredLookup(store.entries, backend, naming, n, found);
      TracedLookup(n);
    }

    // ---- The stages of addToTailingRecord ------------------------------------------------------

    method CheckParents(r: Record, endorseVerified: bool) returns (refVerified: bool)
      ensures refVerified <==> endorseVerified && ParentsVerified(tail, r)
      ensures refVerified <==> endorseVerified && forall p :: p in r.pointers && p in tail ==> tail[p].parentOk
    {
      refVerified := endorseVerified;
      if endorseVerified {
        var i := 0;
        while i < |r.pointers|
          invariant 0 <= i <= |r.pointers| && refVerified
          invariant forall j :: 0 <= j < i && r.pointers[j] in tail ==> tail[r.pointers[j]].parentOk
        {
          if r.pointers[i] in tail && !tail[r.pointers[i]].parentOk {
            refVerified := false;
            break;
          }
          i := i + 1;
        }
      }
    }

    /** Marks one predecessor of the current record and stacks it, unless it is own, absent or marked. */
    method MarkPointer(r: Record, p: Name, ghost current: Name, ghost t: Tail, stack0: seq<Name>, updated0: set<Name>)
      returns (stack: seq<Name>, updated: set<Name>)
      requires Visited(t, r.name, stack0, updated0) && tail == Mark(t, updated0, r.name.producer) && r.name in t
      requires current in t && (current == r.name || current in updated0) && p in t[current].record.pointers
      modifies this`tail
      ensures Visited(t, r.name, stack, updated) && tail == Mark(t, updated, r.name.producer)
      ensures Grown(stack0, updated0, stack, updated)
      ensures p in Unmarked(t, r.name) && p != r.name ==> p in updated
    {
      stack, updated := stack0, updated0;
      if p.producer != r.name.producer {
        if p in tail && r.name.producer !in tail[p].refSet {
          VisitedPush(t, r.name, current, p, stack, updated);
          MarkOneMore(t, updated, r.name.producer, p);
          tail := tail[p := tail[p].(refSet := tail[p].refSet + {r.name.producer})];
          stack := stack + [p];
          updated := updated + {p};
        }
      }
    }

    /** Marks what the current record points to and stacks whatever that changes. */
    method MarkPointers(r: Record, current: Name, pointers: seq<Name>, ghost t: Tail,
                        stack0: seq<Name>, updated0: set<Name>)
      returns (stack: seq<Name>, updated: set<Name>)
      requires Visited(t, r.name, stack0, updated0) && tail == Mark(t, updated0, r.name.producer)
      requires current in t && (current == r.name || current in updated0)
      requires r.name in t && pointers == t[current].record.pointers
      modifies this`tail
      ensures Visited(t, r.name, stack, updated) && tail == Mark(t, updated, r.name.producer)
      ensures Grown(stack0, updated0, stack, updated)
      ensures forall p :: p in pointers && p in Unmarked(t, r.name) && p != r.name ==> p in updated
    {
      stack, updated := stack0, updated0;
      var i := 0;
      while i < |pointers|
        invariant 0 <= i <= |pointers|
        invariant Visited(t, r.name, stack, updated) && tail == Mark(t, updated, r.name.producer)
        invariant Grown(stack0, updated0, stack, updated)
        invariant forall j ::
          0 <= j < i && pointers[j] in Unmarked(t, r.name) && pointers[j] != r.name ==> pointers[j] in updated
      {
        stack, updated := MarkPointer(r, pointers[i], current, t, stack, updated);
        i := i + 1;
      }
    }

    /** One turn of the search: take the top of the stack and pass the mark on to its pointers. */
    method VisitTop(r: Record, ghost t: Tail, stack0: seq<Name>, updated0: set<Name>)
      returns (stack: seq<Name>, updated: set<Name>)
      requires Rooted(t, r.name) && t[r.name].parentOk && tail == Mark(t, updated0, r.name.producer) && Stored()
      requires |stack0| > 0 && Visited(t, r.name, stack0, updated0) && Expanded(t, r.name, stack0, updated0)
      modifies this`tail
      ensures tail == Mark(t, updated, r.name.producer)
      ensures Visited(t, r.name, stack, updated) && Expanded(t, r.name, stack, updated)
      ensures updated0 <= updated && (updated == updated0 ==> |stack| < |stack0|)
    {
      var current := stack0[|stack0| - 1];
      stack := stack0[..|stack0| - 1];
      updated := updated0;
      VisitedVerified(t, r.name, updated0, current);
      if current.rtype != Genesis {
        var found := GetRecord(current);
        assert found.Some?;
        stack, updated := MarkPointers(r, current, found.value.pointers, t, stack, updated0);
      }
      ExpandedStays(t, r.name, current, stack0, updated0, stack, updated);
    }

    /** The depth-first search from a new record, stopping at records its producer wrote or endorsed. */
    method MarkAncestors(r: Record) returns (updated: set<Name>)
      requires Rooted(tail, r.name) && tail[r.name].parentOk && Stored()
      modifies this`tail
      ensures updated == Marks(old(tail), r.name)
      ensures tail == Mark(old(tail), updated, r.name.producer)
    {
      ghost var t := tail;
      var stack := [r.name];
      updated := {};
      SearchStarts(t, r.name);
      while |stack| > 0
        invariant tail == Mark(t, updated, r.name.producer)
        invariant Visited(t, r.name, stack, updated) && Expanded(t, r.name, stack, updated)
        decreases t.Keys - updated, |stack|
      {
        ghost var before := updated;
        stack, updated := VisitTop(r, t, stack, updated);
        FewerLeft(t, r.name, before, stack, updated);
      }
      ExpandedIsMarks(t, r.name, updated);
    }

    // ---- Confirmation --------------------------------------------------------------------------

    /**
     Stores a confirmed record, replaces the certificate records it names as previous, and tells the
     certificate manager, if the record is for it, and then the application.
     */
    method OnRecordConfirmed(r: Record)
      requires Stored()
      modifies this`backend, store, this`lastCerts, this`reported
      ensures Stored() && backend == old(backend)[r.name := r]
      ensures lastCerts == Supersede(old(lastCerts), r)
      ensures forall n :: n in lastCerts <==>
        if r.name.rtype == Certificate then (n in old(lastCerts) || n == r.name) && Some(n) !in r.prevCerts
        else n in old(lastCerts)
      ensures reported == old(reported) + Reports(r)
      ensures reported == old(reported)
        + (if r.name.rtype in {Certificate, Revocation} then [ToManager(r), ToApplication(r)] else [ToApplication(r)])
    {
      forall n ensures n in Supersede(lastCerts, r) <==>
        if r.name.rtype == Certificate then (n in lastCerts || n == r.name) && Some(n) !in r.prevCerts
        else n in lastCerts
      {
        SupersedeMembers(lastCerts, r, n);
      }
      store.PutRecord(naming.path(r.name), r);
      MirrorsPut(old(store.entries), backend, naming, r, store.entries);
      backend := backend[r.name := r];
      if r.name.rtype == Certificate {
        lastCerts := lastCerts + [r.name];
        ghost var started := lastCerts;
        var i := 0;
        while i < |r.prevCerts|
          invariant 0 <= i <= |r.prevCerts|
          invariant Stored() && backend == old(backend)[r.name := r] && reported == old(reported)
          invariant WithoutAll(lastCerts, r.prevCerts[i..]) == WithoutAll(started, r.prevCerts)
        {
          if r.prevCerts[i].Some? {
            lastCerts := Without(lastCerts, r.prevCerts[i].value);
          }
          i := i + 1;
        }
      }
      if Managed(r.name) {
        reported := reported + [ToManager(r)];
      }
      reported := reported + [ToApplication(r)];
    }

    /** What one updated record's weight brings about: confirmation, removal, both or neither. */
    method SettleRecord(n: Name) returns (fired: bool, flipped: bool)
      requires Stored() && n in tail && tail[n].record.name == n
      modifies this`tail, this`backend, store, this`lastCerts, this`reported
      ensures Stored()
      ensures fired <==> |old(tail)[n].refSet| == cfg.confirmWeight
      ensures flipped <==> fired && !old(tail)[n].parentOk
      ensures tail == SettleOne(cfg, old(tail), n)
      ensures backend == if fired then old(backend)[n := old(tail)[n].record] else old(backend)
      ensures lastCerts == if fired then Supersede(old(lastCerts), old(tail)[n].record) else old(lastCerts)
      ensures reported == old(reported) + if fired then Reports(old(tail)[n].record) else []
    {
      var weight := |tail[n].refSet|;
      fired, flipped := false, false;
      if weight == cfg.confirmWeight {
        if !tail[n].parentOk {
          tail := tail[n := tail[n].(parentOk := true)];
          flipped := true;
        }
        var found := GetRecord(n);
        OnRecordConfirmed(found.value);
        fired := true;
      }
      if weight >= cfg.RemoveWeight() {
        tail := tail - {n};
      }
    }

    /** Confirms the updated records that reached confirmWeight and removes those that grew too deep. */
    method ConfirmRecords(updated: set<Name>) returns (referenceNeedUpdate: bool, ghost log: seq<Confirmation>)
      requires Stored() && updated <= tail.Keys && forall n :: n in tail ==> tail[n].record.name == n
      modifies this`tail, this`backend, store, this`lastCerts, this`reported
      ensures Stored() && tail == Prune(cfg, old(tail), updated)
      ensures backend == Store(old(backend), old(tail), Confirmed(cfg, old(tail), updated))
      ensures Fires(log, old(tail), Confirmed(cfg, old(tail), updated))
      ensures lastCerts == Frontier(old(lastCerts), log)
      ensures reported == old(reported) + Reported(log)
      ensures referenceNeedUpdate <==> Flips(old(tail), Confirmed(cfg, old(tail), updated))
    {
      ghost var t, stored, latest, told := tail, backend, lastCerts, reported;
      referenceNeedUpdate, log := false, [];
      var todo := updated;
      while todo != {}
        invariant todo <= updated && Stored()
        invariant Progress(cfg, t, updated - todo, log, stored, latest, told,
                           tail, backend, lastCerts, reported, referenceNeedUpdate)
        decreases todo
      {
        var n :| n in todo;
        referenceNeedUpdate, log := SettleNext(n, referenceNeedUpdate, log, t, updated - todo, stored, latest, told);
        assert updated - (todo - {n}) == updated - todo + {n};
        todo := todo - {n};
      }
      assert updated - todo == updated;
    }

    /** Settles one more record and keeps track of what was confirmed. */
    method SettleNext(n: Name, needUpdate: bool, ghost log: seq<Confirmation>, ghost t: Tail, ghost done: set<Name>,
                      ghost stored: map<Name, Record>, ghost latest: seq<Name>, ghost told: seq<Report>)
      returns (needUpdate': bool, ghost log': seq<Confirmation>)
      requires Stored() && n in t && n !in done && t[n].record.name == n
      requires Progress(cfg, t, done, log, stored, latest, told, tail, backend, lastCerts, reported, needUpdate)
      modifies this`tail, this`backend, store, this`lastCerts, this`reported
      ensures Stored()
      ensures Progress(cfg, t, done + {n}, log', stored, latest, told, tail, backend, lastCerts, reported, needUpdate')
    {
      PruneOneMore(cfg, t, done, n);
      ghost var backend0, lastCerts0, reported0 := backend, lastCerts, reported;
      var fired, flipped := SettleRecord(n);
      needUpdate', log' := needUpdate || flipped, log;
      if fired {
        log' := log + [Confirmation(t[n].record, t[n].refSet)];
        ProgressFired(cfg, t, done, n, log, stored, latest, told,
                      Prune(cfg, t, done), backend0, lastCerts0, reported0, needUpdate);
      } else {
        ConfirmNoMore(cfg, t, done, n);
      }
    }

    /**
     The flag-update loop. Its body would dereference the failed lookup of an unverified record, so
     it must find no record whose own check passed while its flag is down.
     */
    method UpdateReferenceFlags(referenceNeedUpdate: bool)
      requires forall n :: n in tail && tail[n].recordOk ==> tail[n].parentOk
    {
      var again := referenceNeedUpdate;
      while again
        decreases again
      {
        again := false;
        var todo := tail.Keys;
        while todo != {}
          invariant todo <= tail.Keys && !again
          decreases todo
        {
          var n :| n in todo;
          if !tail[n].parentOk && tail[n].recordOk {
            assert false;
          }
          todo := todo - {n};
        }
      }
    }

    // ---- Eviction ------------------------------------------------------------------------------

    method CollectExpired(now: int) returns (timeoutList: set<Name>)
      ensures timeoutList == Expired(cfg, tail, now)
    {
      timeoutList := {};
      var timeBefore := now - cfg.confirmationTimeout;
      var todo := tail.Keys;
      while todo != {}
        invariant todo <= tail.Keys
        invariant timeoutList == set n | n in Expired(cfg, tail, now) && n !in todo
        decreases todo
      {
        var n :| n in todo;
        if |tail[n].refSet| < cfg.confirmWeight && tail[n].addedTime < timeBefore {
          timeoutList := timeoutList + {n};
        }
        todo := todo - {n};
      }
    }

    /** The tail records that point to a record of the list. */
    method CollectChildren(timeoutList: set<Name>) returns (childrenList: set<Name>)
      ensures childrenList == set n | n in tail && exists p :: p in tail[n].record.pointers && p in timeoutList
    {
      childrenList := {};
      var todo := tail.Keys;
      while todo != {}
        invariant todo <= tail.Keys
        invariant childrenList ==
          set n | n in tail && n !in todo && exists p :: p in tail[n].record.pointers && p in timeoutList
        decreases todo
      {
        var n :| n in todo;
        var i := 0;
        var found := false;
        while i < |tail[n].record.pointers|
          invariant 0 <= i <= |tail[n].record.pointers|
          invariant found <==> exists j :: 0 <= j < i && tail[n].record.pointers[j] in timeoutList
        {
          if tail[n].record.pointers[i] in timeoutList {
            found := true;
          }
          i := i + 1;
        }
        if found {
          childrenList := childrenList + {n};
        }
        todo := todo - {n};
      }
    }

    /** Evicts the expired unconfirmed records, then round by round whatever points to evicted ones. */
    method RemoveTimeoutRecords()
      modifies this`tail, this`clock
      ensures old(clock) <= clock
      ensures tail == old(tail) - Evicted(cfg, old(tail), clock)
      ensures forall n :: n in tail && |tail[n].refSet| < cfg.confirmWeight ==>
        tail[n].addedTime >= clock - cfg.confirmationTimeout
      ensures forall n :: n in old(tail) ==>
        (n !in tail <==>
           exists x :: (x in old(tail) && Reaches(Held(old(tail)), n, x)
                        && |old(tail)[x].refSet| < cfg.confirmWeight
                        && old(tail)[x].addedTime < clock - cfg.confirmationTimeout))
    {
      ghost var t := tail;
      var now := ReadClock();
      var timeoutList := CollectExpired(now);
      ghost var gone := {};
      EvictionStarts(cfg, t, now);
      while timeoutList != {}
        invariant clock == now && old(clock) <= clock
        invariant tail == t - gone
        invariant Sweeping(cfg, t, now, gone, timeoutList)
        decreases tail.Keys
      {
        MinusTwice(t, gone, timeoutList);
        tail := tail - timeoutList;
        var childrenList := CollectChildren(timeoutList);
        SweepOneRound(cfg, t, now, gone, timeoutList, childrenList);
        gone := gone + timeoutList;
        timeoutList := childrenList;
      }
      SweepEnds(cfg, t, now, gone);
      SweepTimes(cfg, t, now);
    }

    // ---- addToTailingRecord --------------------------------------------------------------------

    /** The work of addToTailingRecord on the fields, for a record not in the tail yet. */
    method InsertAndSettle(r: Record, endorseVerified: bool, refVerified: bool, now: int, ghost s: Node)
      returns (ghost s': Node)
      requires s.tail == tail && s.backend == backend && s.lastCerts == lastCerts && s.clock <= now <= clock
      requires refVerified <==> endorseVerified && ParentsVerified(s.tail, r)
      requires Prepared(cfg, s, r, endorseVerified, now) && reported == Reported(s.log) && Stored()
      modifies this`tail, this`backend, store, this`lastCerts, this`clock, this`reported
      ensures s'.tail == tail && s'.backend == backend && s'.lastCerts == lastCerts && s'.clock == clock
      ensures s'.stack == s.stack && reported == Reported(s'.log) && Stored()
      ensures Added(cfg, s, r, endorseVerified, now, s')
    {
      tail := tail[r.name := TailState(refVerified, {}, endorseVerified, r, now)];
      var updated := {};
      if endorseVerified {
        updated := MarkAncestors(r);
      }
      MarkedFrom(s, r, endorseVerified, now, tail, updated);
      var referenceNeedUpdate;
      ghost var log;
      referenceNeedUpdate, log := ConfirmRecords(updated);
      UpdateReferenceFlags(referenceNeedUpdate);
      RemoveTimeoutRecords();
      s' := Finished(cfg, s, r, endorseVerified, now, tail, backend, lastCerts, clock, log);
    }

    /** Adds a record not in the tail on behalf of an enabled event. */
    method AddUnseenRecord(r: Record, endorseVerified: bool, ghost e: Event) returns (ghost at: int)
      requires Traced() && Allows(cfg, run, r, endorseVerified, e)
      modifies this, store
      ensures Traced() && Steps(cfg, old(run), AtTime(e, at), run) && old(clock) <= clock
    {
      ghost var s := run[|run| - 1];
      var refVerified := CheckParents(r, endorseVerified);
      var now := ReadClock();
      at := now;
      AddPrepared(cfg, run, s, r, endorseVerified, e, at);
      ghost var s' := InsertAndSettle(r, endorseVerified, refVerified, now, s);
      run := AddCompleted(cfg, run, s, r, endorseVerified, e, at, s');
    }

    /** Adds a record on behalf of an enabled event; a record already in the tail changes nothing. */
    method AddToTailingRecord(r: Record, endorseVerified: bool, ghost e: Event) returns (ghost at: int)
      requires Traced()
      requires r.name !in tail ==> Allows(cfg, run, r, endorseVerified, e)
      modifies this, store
      ensures Traced() && old(clock) <= clock
      ensures if r.name in old(tail) then run == old(run) else Steps(cfg, old(run), AtTime(e, at), run)
    {
      at := clock;
      if r.name in tail {
        return;
      }
      at := AddUnseenRecord(r, endorseVerified, e);
    }

    // ---- Admission checks ----------------------------------------------------------------------

    /** Exactly the expected number of pointers, none of them twice. */
    method CheckPointerCount(r: Record) returns (ok: bool)
      ensures ok <==> |r.pointers| == cfg.precedingRecordNum && Distinct(r.pointers)
    {
      if |r.pointers| != cfg.precedingRecordNum {
        return false;
      }
      var nameSet := {};
      var i := 0;
      while i < |r.pointers|
        invariant 0 <= i <= |r.pointers|
        invariant nameSet == set n | n in r.pointers[..i]
        invariant |nameSet| <= i
        invariant |nameSet| == i <==> Distinct(r.pointers[..i])
      {
        DistinctStep(r.pointers, i);
        nameSet := nameSet + {r.pointers[i]};
        i := i + 1;
      }
      assert r.pointers[..i] == r.pointers;
      ok := |nameSet| == cfg.precedingRecordNum;
    }

    /** The syntax check; the answers of the certificate manager and the application are given. */
    method CheckSyntaxValidity(r: Record, signatureOk: bool, formatOk: bool, appOk: bool) returns (ok: bool)
      modifies this`clock
      ensures old(clock) <= clock
      ensures ok <==> (SyntaxOk(cfg, r, clock) && signatureOk && appOk
                       && (r.name.rtype in {Certificate, Revocation} ==> formatOk))
      ensures ok <==> (|r.pointers| == cfg.precedingRecordNum && Distinct(r.pointers)
                       && r.name.timestamp <= clock + cfg.clockSkewTolerance
                       && (forall p :: p in r.pointers ==> p.producer != r.name.producer)
                       && signatureOk && appOk && (r.name.rtype in {Certificate, Revocation} ==> formatOk))
    {
      ok := CheckPointerCount(r);
      if !ok || !signatureOk {
        return false;
      }
      var now := ReadClock();
      if r.name.timestamp > now + cfg.clockSkewTolerance {
        return false;
      }
      var i := 0;
      while i < |r.pointers|
        invariant 0 <= i <= |r.pointers|
        invariant forall j :: 0 <= j < i ==> r.pointers[j].producer != r.name.producer
      {
        if r.pointers[i].producer == r.name.producer {
          return false;
        }
        i := i + 1;
      }
      if r.name.rtype in {Certificate, Revocation} && !formatOk {
        return false;
      }
      return appOk;
    }

    /** The endorsement check; the answers of the certificate manager and the application are given. */
    method CheckEndorseValidity(r: Record, signatureOk: bool, appOk: bool) returns (ok: bool)
      ensures ok <==> signatureOk && ContributionOk(cfg, tail, r) && appOk
      ensures ok <==>
        (signatureOk && appOk
         && forall p :: p in r.pointers ==> p in tail && |tail[p].refSet| <= cfg.contributionWeight)
    {
      if !signatureOk {
        return false;
      }
      var i := 0;
      while i < |r.pointers|
        invariant 0 <= i <= |r.pointers|
        invariant forall j :: 0 <= j < i ==>
          r.pointers[j] in tail && |tail[r.pointers[j]].refSet| <= cfg.contributionWeight
      {
        if r.pointers[i] in tail {
          if |tail[r.pointers[i]].refSet| > cfg.contributionWeight {
            return false;
          }
        } else {
          return false;
        }
        i := i + 1;
      }
      return appOk;
    }

    // ---- Waiting records -----------------------------------------------------------------------

    method AllHeld(pointers: seq<Name>) returns (held: bool)
      requires Stored()
      ensures held <==> forall p :: p in pointers ==> Has(tail, backend, p)
    {
      var i := 0;
      while i < |pointers|
        invariant 0 <= i <= |pointers|
        invariant forall j :: 0 <= j < i ==> Has(tail, backend, pointers[j])
      {
        var has := HasRecord(pointers[i]);
        if !has {
          return false;
        }
        i := i + 1;
      }
      return true;
    }

    /** The names of the list that this peer has not seen, in order. */
    method Unseen(names: seq<Option<Name>>) returns (wanted: seq<Name>)
      requires Stored()
      ensures forall n :: n in wanted <==> Some(n) in names && !Seen(tail, backend, n)
    {
      wanted := [];
      var i := 0;
      while i < |names|
        invariant 0 <= i <= |names|
        invariant forall n :: n in wanted <==> Some(n) in names[..i] && !Seen(tail, backend, n)
      {
        if names[i].Some? {
          var seen := SeenRecord(names[i].value);
          if !seen {
            wanted := wanted + [names[i].value];
          }
        }
        i := i + 1;
      }
      assert names[..i] == names;
    }

    /** Adds a waiting record if all its ancestors arrived; whether it is endorsed is checked then. */
    method CheckRecordAncestor(r: Record, signatureOk: bool, appOk: bool) returns (added: bool, ghost e: Event)
      requires Traced() && Waits(Now(), r) && !Seen(tail, backend, r.name)
      modifies this, store
      ensures Traced() && old(clock) <= clock
      ensures added <==> old(Ready(Now(), r))
      ensures added <==>
        old((forall p :: p in r.pointers ==> if p in tail then tail[p].parentOk else p in backend)
            && (r.name.rtype == Certificate ==>
                  forall n :: Some(n) in r.prevCerts ==> n in tail || n in backend))
      ensures if added then e.Resolve? && e.r == r && Steps(cfg, old(run), e, run) else run == old(run)
      ensures added ==> (e.endorsed <==> signatureOk && appOk && ContributionOk(cfg, old(tail), r))
    {
      ReadyMeans(Now(), r);
      var readyToAdd := AllHeld(r.pointers);
      if r.name.rtype == Certificate {
        var unseen := Unseen(r.prevCerts);
        if |unseen| > 0 {
          assert unseen[0] in unseen;
          readyToAdd := false;
        }
      }
      if !readyToAdd {
        return false, Resolve(r, false, 0);
      }
      assert Ready(Now(), r);
      var endorsed := CheckEndorseValidity(r, signatureOk, appOk);
      ghost var at := AddToTailingRecord(r, endorsed, Resolve(r, endorsed, 0));
      added, e := true, Resolve(r, endorsed, at);
    }

    /** Takes one entry off the waiting list. */
    method EraseWaiting(i: nat)
      requires Traced() && i < |syncStack|
      modifies this, store
      ensures Traced() && clock == old(clock)
      ensures Steps(cfg, old(run), Forget(i), run)
      ensures Now() == old(Now()).(stack := Erased(old(syncStack), i), clock := clock)
    {
      ghost var s' := Now().(stack := Erased(syncStack, i), clock := clock);
      syncStack := syncStack[..i] + syncStack[i + 1..];
      run := RunExtends(cfg, run, Forget(i), s');
    }

    /** Takes a waiting record off the list after it was added. */
    method EraseResolved(i: nat, answers: Answers, ghost before: seq<Node>, ghost e: Event)
      requires Traced() && Steps(cfg, before, e, run) && Run(cfg, before) && Queued(before[|before| - 1])
      requires e.Resolve? && Heeds(cfg, before[|before| - 1], e, answers)
      requires i < |syncStack| && syncStack == before[|before| - 1].stack && e.r == syncStack[i].record
      modifies this, store
      ensures Traced() && Queued(Now()) && clock == old(clock)
      ensures Drains(cfg, before, answers, run, clock)
      ensures syncStack == Erased(old(syncStack), i)
    {
      EraseWaiting(i);
      ResolvedDrains(cfg, before, e, old(run), i, answers, run, clock);
    }

    /** Adds one waiting record if it is ready and takes it off the list then. */
    method ResolveWaiting(i: nat, answers: Answers) returns (resolved: bool)
      requires Traced() && Queued(Now()) && i < |syncStack|
      modifies this, store
      ensures Traced() && Queued(Now()) && old(clock) <= clock
      ensures Drains(cfg, old(run), answers, run, clock)
      ensures resolved <==> old(Ready(Now(), syncStack[i].record))
      ensures if resolved then syncStack == Erased(old(syncStack), i)
              else run == old(run) && syncStack == old(syncStack)
    {
      var r := syncStack[i].record;
      assert Waits(Now(), r);
      ghost var e;
      resolved, e := CheckRecordAncestor(r, answers.signs(r), answers.approves(r));
      if resolved {
        EraseResolved(i, answers, old(run), e);
      }
    }

    /** Handles one waiting record; true when it left the list, added or given up. */
    method TryWaiting(i: nat, answers: Answers) returns (erased: bool)
      requires Traced() && Queued(Now()) && i < |syncStack|
      modifies this, store
      ensures Traced() && Queued(Now()) && old(clock) <= clock
      ensures Drains(cfg, old(run), answers, run, clock)
      ensures if erased then syncStack == Erased(old(syncStack), i) else run == old(run) && syncStack == old(syncStack)
      ensures erased <==> (old(Ready(Now(), syncStack[i].record))
                           || Abs(clock - old(syncStack)[i].since) > cfg.ancestorFetchTimeout)
    {
      ghost var s := run[|run| - 1];
      var since := syncStack[i].since;
      erased := ResolveWaiting(i, answers);
      if erased {
        return;
      }
      var now := ReadClock();
      if Abs(now - since) > cfg.ancestorFetchTimeout {
        RunDated(cfg, run, |run| - 1);
        EraseWaiting(i);
        FollowsStep(cfg, old(run), answers, old(run), Forget(i), run);
        ResolvedQueued(s, run[|run| - 1], i);
        ErasedAccounted(cfg, s, i, run[|run| - 1], now);
        erased := true;
      }
    }

    /** Handles the entry at a position of a pass; the result is where the pass goes on. */
    method PassOne(i: nat, answers: Answers, ghost start: seq<Node>, ghost stack: seq<Waiting>, ghost begun: int)
      returns (next: nat)
      requires Traced() && Queued(Now()) && begun <= clock && i < |syncStack|
      requires Drains(cfg, start, answers, run, clock) && Passed(cfg, stack, Now(), i, begun)
      modifies this, store
      ensures Traced() && Queued(Now()) && old(clock) <= clock
      ensures Drains(cfg, start, answers, run, clock) && Passed(cfg, stack, Now(), next, begun)
      ensures |syncStack| - next < |old(syncStack)| - i
    {
      next := i;
      var erased := TryWaiting(i, answers);
      DrainsOn(cfg, start, old(run), old(clock), answers, run, clock);
      if erased {
        PassedErased(cfg, stack, old(Now()), i, begun, Now());
      } else {
        PassedKept(cfg, stack, Now(), i, begun, clock);
        next := i + 1;
      }
    }

    /** One pass over the waiting records. */
    method PassStack(answers: Answers)
      requires Traced() && Queued(Now())
      modifies this, store
      ensures Traced() && Queued(Now()) && old(clock) <= clock
      ensures Drains(cfg, old(run), answers, run, clock)
      ensures |syncStack| <= |old(syncStack)| && forall w :: w in syncStack ==> w in old(syncStack)
      ensures |syncStack| == |old(syncStack)| ==> Quiescent(Now())
      ensures InTime(cfg, syncStack, old(clock))
    {
      var i: nat := 0;
      while i < |syncStack|
        invariant Traced() && Queued(Now()) && old(clock) <= clock
        invariant Drains(cfg, old(run), answers, run, clock)
        invariant Passed(cfg, old(syncStack), Now(), i, old(clock))
        decreases |syncStack| - i
      {
        i := PassOne(i, answers, old(run), old(syncStack), old(clock));
      }
      PassedAll(cfg, old(syncStack), Now(), i, old(clock));
    }

    /** Goes over the waiting records again and again until a whole pass resolves none of them. */
    method DrainStack(answers: Answers)
      requires Traced() && Queued(Now())
      modifies this, store
      ensures Valid() && Drains(cfg, old(run), answers, run, clock)
      ensures forall w :: w in syncStack ==> w in old(syncStack)
      ensures InTime(cfg, syncStack, old(clock))
    {
      var stackSize: int := -1;  // no size yet, so the first pass always runs
      while stackSize != |syncStack|
        invariant Traced() && Queued(Now()) && old(clock) <= clock
        invariant Drains(cfg, old(run), answers, run, clock)
        invariant forall w :: w in syncStack ==> w in old(syncStack)
        invariant |syncStack| == stackSize ==> Quiescent(Now()) && InTime(cfg, syncStack, old(clock))
        decreases |syncStack| + (if stackSize != |syncStack| then 1 else 0)
      {
        stackSize := |syncStack|;
        ghost var before, at := run, clock;
        PassStack(answers);
        DrainsOn(cfg, old(run), before, at, answers, run, clock);
      }
    }

    // ---- onFetchedRecord -----------------------------------------------------------------------

    method StackHolds(n: Name) returns (found: bool)
      ensures found <==> exists i :: 0 <= i < |syncStack| && syncStack[i].record.name == n
    {
      var i := 0;
      while i < |syncStack|
        invariant 0 <= i <= |syncStack|
        invariant forall j :: 0 <= j < i ==> syncStack[j].record.name != n
      {
        if syncStack[i].record.name == n {
          return true;
        }
        i := i + 1;
      }
      return false;
    }

    /** Appends a checked record to the waiting list. */
    method PushWaiting(r: Record) returns (ghost at: int)
      requires Traced() && Enabled(cfg, Now(), Receive(r, clock))
      modifies this, store
      ensures Traced() && Steps(cfg, old(run), Receive(r, at), run)
      ensures tail == old(tail) && backend == old(backend)
      ensures syncStack == old(syncStack) + [Waiting(r, at)]
    {
      var now := ReadClock();
      at := now;
      syncStack := syncStack + [Waiting(r, now)];
      ghost var s := run[|run| - 1];
      ghost var s' := s.(stack := syncStack, known := s.known[r.name := r], clock := clock);
      run := RunExtends(cfg, run, Receive(r, at), s');
    }

    /**
     A fetched packet: ignored when seen or waiting already, dropped when it fails the syntax check,
     otherwise put on the waiting list, which is then drained unless an ancestor is still missing.
     The missing ancestors are what the peer goes on to fetch.
     */
    method OnFetchedRecord(r: Record, signatureOk: bool, formatOk: bool, appOk: bool, answers: Answers)
      returns (accepted: bool, wanted: seq<Name>, ghost checkedAt: int)
      requires Valid() && Genuine(Now(), r)
      modifies this, store
      ensures Valid()
      ensures accepted <==>
        (!old(Seen(tail, backend, r.name))
         && (forall i :: 0 <= i < |old(syncStack)| ==> old(syncStack)[i].record.name != r.name)
         && r.name.rtype != Genesis
         && SyntaxOk(cfg, r, checkedAt) && signatureOk && appOk
         && (r.name.rtype in {Certificate, Revocation} ==> formatOk))
      ensures !accepted ==> run == old(run)
      ensures old(clock) <= checkedAt
      ensures accepted ==> Arrives(cfg, old(run), r, answers, run, clock)
      ensures accepted ==> forall n :: n in wanted <==> Mentions(r, n) && !old(Seen(tail, backend, n))
      ensures accepted ==> Awaited(old(tail), old(backend), r, wanted)
      ensures accepted && wanted != [] ==> |run| == |old(run)| + 1
    {
      accepted, wanted, checkedAt := false, [], clock;
      var seen := SeenRecord(r.name);
      if seen {
        return;
      }
      var waiting := StackHolds(r.name);
      if waiting || r.name.rtype == Genesis {
        return;
      }
      var ok := CheckSyntaxValidity(r, signatureOk, formatOk, appOk);
      checkedAt := clock;
      if !ok {
        return;
      }
      accepted := true;
      wanted := AdmitRecord(r, answers);
    }

    /** Puts a checked record on the waiting list and resolves what can be resolved. */
    method AdmitRecord(r: Record, answers: Answers) returns (wanted: seq<Name>)
      requires Valid() && Enabled(cfg, Now(), Receive(r, clock))
      requires forall i :: 0 <= i < |syncStack| ==> syncStack[i].record.name != r.name
      modifies this, store
      ensures Valid() && Arrives(cfg, old(run), r, answers, run, clock)
      ensures forall n :: n in wanted <==> Mentions(r, n) && !old(Seen(tail, backend, n))
      ensures Awaited(old(tail), old(backend), r, wanted)
      ensures wanted != [] ==> |run| == |old(run)| + 1
    {
      ghost var s := run[|run| - 1];
      ghost var at := PushWaiting(r);
      ghost var received := run;
      wanted := MissingAncestors(r);
      PushedQueued(s, Now(), r, at);
      if wanted != [] {
        assert Mentions(r, wanted[0]);
        PushedQuiescent(s, Now(), r, at, wanted[0]);
        return;
      }
      DrainStack(answers);
    }

    /** The predecessors and, for a certificate record, previous certificates not seen yet. */
    method MissingAncestors(r: Record) returns (wanted: seq<Name>)
      requires Stored()
      ensures forall n :: n in wanted <==> Mentions(r, n) && !Seen(tail, backend, n)
      ensures Awaited(tail, backend, r, wanted)
    {
      wanted := [];
      var i := 0;
      while i < |r.pointers|
        invariant 0 <= i <= |r.pointers|
        invariant forall n :: n in wanted <==> n in r.pointers[..i] && !Seen(tail, backend, n)
      {
        var seen := SeenRecord(r.pointers[i]);
        if !seen {
          wanted := wanted + [r.pointers[i]];
        }
        i := i + 1;
      }
      assert r.pointers[..i] == r.pointers;
      if r.name.rtype == Certificate {
        var more := Unseen(r.prevCerts);
        wanted := wanted + more;
      }
      MissingAwaited(tail, backend, r, wanted);
    }

    // ---- createRecord --------------------------------------------------------------------------

    /** The tail records a new record of this peer may point to, in no particular order. */
    method Candidates() returns (recordList: seq<Name>)
      ensures forall n :: n in recordList <==> Appendable(cfg, tail, n)
      ensures Distinct(recordList) && |recordList| == |Choices(cfg, tail)|
      ensures forall n :: n in recordList <==>
        n in tail && |tail[n].refSet| <= cfg.appendWeight && tail[n].parentOk && n.producer != cfg.self
    {
      recordList := [];
      ghost var listed := {};
      var todo := tail.Keys;
      while todo != {}
        invariant todo <= tail.Keys
        invariant forall n :: n in recordList <==> n in listed
        invariant listed == set n | n in Choices(cfg, tail) && n !in todo
        invariant Distinct(recordList) && |recordList| == |listed|
        decreases todo
      {
        var n :| n in todo;
        if |tail[n].refSet| <= cfg.appendWeight && n.producer != cfg.self && tail[n].parentOk {
          recordList := recordList + [n];
          listed := listed + {n};
        }
        todo := todo - {n};
      }
      assert listed == Choices(cfg, tail);
    }

    /** Adds pointers from the list, one at least, until there are as many as a record needs. */
    method ChoosePointers(own: seq<Name>, recordList: seq<Name>) returns (pointers: seq<Name>)
      requires cfg.Valid() && |recordList| >= cfg.precedingRecordNum
      ensures pointers == Chosen(cfg, own, recordList)
    {
      pointers := own;
      var i := 0;
      while i < |recordList|
        invariant 0 <= i <= |recordList| && (i == 0 || |own| + i < cfg.precedingRecordNum)
        invariant pointers == own + recordList[..i]
      {
        pointers := pointers + [recordList[i]];
        assert recordList[..i + 1] == recordList[..i] + [recordList[i]];
        if |pointers| >= cfg.precedingRecordNum {
          return;
        }
        i := i + 1;
      }
    }

    method PreviousCertificates(rtype: RecordType, items: seq<Option<Name>>) returns (prevCerts: seq<Option<Name>>)
      ensures |prevCerts| == |items| + (if rtype == Certificate then |lastCerts| else 0)
      ensures forall i :: 0 <= i < |items| ==> prevCerts[i] == items[i]
      ensures forall i :: |items| <= i < |prevCerts| ==> prevCerts[i] == Some(lastCerts[i - |items|])
    {
      prevCerts := items;
      if rtype == Certificate {
        var i := 0;
        while i < |lastCerts|
          invariant 0 <= i <= |lastCerts| && |prevCerts| == |items| + i
          invariant forall j :: 0 <= j < |items| ==> prevCerts[j] == items[j]
          invariant forall j :: |items| <= j < |prevCerts| ==> prevCerts[j] == Some(lastCerts[j - |items|])
        {
          prevCerts := prevCerts + [Some(lastCerts[i])];
          i := i + 1;
        }
      }
    }

    /** Fills a new record: the previous certificates it names, and what it points to if there is enough. */
    method BuildRecord(name: Name, items: seq<Option<Name>>) returns (built: Option<Record>)
      requires cfg.Valid() && name.producer == cfg.self
      ensures built.None? <==> |Choices(cfg, tail)| < cfg.precedingRecordNum
      ensures built.Some? ==> built.value.name == name && Built(cfg, tail, lastCerts, items, built.value)
    {
      var prevCerts := PreviousCertificates(name.rtype, items);
      var recordList := Candidates();
      if |recordList| < cfg.precedingRecordNum {
        return None;
      }
      var pointers := ChoosePointers([], recordList);
      assert pointers == recordList[..cfg.precedingRecordNum];
      built := Some(Record(name, pointers, prevCerts));
      CarriesLast(lastCerts, items, prevCerts);
    }

    /**
     Creates, signs and adds a record of this peer under the full name its packet gets, a name
     nothing mentions yet. `items` are the previous certificates the application put in itself;
     the last three arguments say whether the peer has a certificate, whether signing the packet
     works and whether signing the sync Interest works.
     */
    method CreateRecord(name: Name, items: seq<Option<Name>>, authorized: bool, signs: bool, announces: bool)
      returns (rc: ReturnCode, created: Option<Record>, ghost at: int)
      requires Valid() && Unmentioned(Now(), name) && Some(name) !in items
      requires name.producer == cfg.self && name.rtype != Genesis
      modifies this, store
      ensures Valid()
      ensures created.Some? <==>
        (old(tail) != map[] && authorized && |Choices(cfg, old(tail))| >= cfg.precedingRecordNum && signs)
      ensures created.None? ==> run == old(run)
      ensures created.Some? ==> created.value.name == name && Steps(cfg, old(run), Create(created.value, at), run)
      ensures created.Some? ==>
        forall now :: name.timestamp <= now + cfg.clockSkewTolerance ==> SyntaxOk(cfg, created.value, now)
      ensures created.Some? ==> ContributionOk(cfg, old(tail), created.value)
      ensures created.Some? ==> forall p :: p in created.value.pointers ==>
        p in old(tail) && |old(tail)[p].refSet| <= cfg.appendWeight && old(tail)[p].parentOk && p.producer != cfg.self
      ensures created.Some? ==> items <= created.value.prevCerts
      ensures created.Some? ==>
        |created.value.prevCerts| == |items| + (if name.rtype == Certificate then |old(lastCerts)| else 0)
      ensures created.Some? && name.rtype == Certificate ==>
        forall n :: n in old(lastCerts) ==> Some(n) in created.value.prevCerts
      ensures rc == NotEnoughTailingRecord <==>
        (old(tail) != map[] && authorized
         && |set n | n in old(tail) && |old(tail)[n].refSet| <= cfg.appendWeight && old(tail)[n].parentOk
                     && n.producer != cfg.self| < cfg.precedingRecordNum)
      ensures rc == (if old(tail) == map[] then NoTailingRecord
                     else if !authorized then SigningError
                     else if |Choices(cfg, old(tail))| < cfg.precedingRecordNum then NotEnoughTailingRecord
                     else if !signs || !announces then SigningError
                     else NoError(name))
    {
      rc, created, at := NoTailingRecord, None, clock;
      ChoicesMean(cfg, tail);
      if tail == map[] {
        return;
      }
      if !authorized {
        return SigningError, None, at;
      }
      var built := BuildRecord(name, items);
      if built.None? {
        return NotEnoughTailingRecord, None, at;
      }
      if !signs {
        return SigningError, None, at;
      }
      BuiltAdmissible(cfg, tail, lastCerts, items, built.value);
      BuiltEnabled(cfg, Now(), items, built.value, clock);
      at := AddCreated(built.value);
      created := built;
      rc := if announces then NoError(name) else SigningError;
    }

    /** Adds a finished record of this peer; nothing was waiting for it. */
    method AddCreated(r: Record) returns (ghost at: int)
      requires Valid() && Unmentioned(Now(), r.name) && Enabled(cfg, Now(), Create(r, clock))
      modifies this, store
      ensures Valid() && Steps(cfg, old(run), Create(r, at), run)
    {
      ghost var before := run;
      at := AddToTailingRecord(r, true, Create(r, clock));
      ResolveGains(cfg, before, Create(r, at), run[|run| - 1]);
      CreateQuiescent(before[|before| - 1], run[|run| - 1], r.name);
    }

    // ---- sendSyncInterest ----------------------------------------------------------------------

    /** What a sync Interest carries: the latest certificate records and the unendorsed verified records. */
    method SendSyncInterest() returns (certs: seq<Name>, tips: set<Name>)
      ensures certs == lastCerts
      ensures forall n :: n in tips <==> Tip(tail, n)
      ensures forall n :: n in tips <==> n in tail && tail[n].parentOk && tail[n].refSet == {}
    {
      certs := lastCerts;
      tips := {};
      var todo := tail.Keys;
      while todo != {}
        invariant todo <= tail.Keys
        invariant forall n :: n in tips <==> Tip(tail, n) && n !in todo
        decreases todo
      {
        var n :| n in todo;
        if tail[n].parentOk && tail[n].refSet == {} {
          tips := tips + {n};
        }
        todo := todo - {n};
      }
    }

    // ---- listRecord ----------------------------------------------------------------------------

    /**
     The confirmed records under a prefix, as the store lists them; the filter for unverified tail
     records drops none of them. What the store's scan misses is missing here, and nothing else.
     */
    method ListRecord(prefix: Backend.Path) returns (names: seq<Name>)
      requires Valid()
      ensures forall n :: n in names ==> n in backend && prefix <= naming.path(n) && Has(tail, backend, n)
      ensures forall i, j :: 0 <= i < j < |names| ==>
        Backend.Less(Backend.Uri(naming.path(names[i])), Backend.Uri(naming.path(names[j])))
      ensures (forall n :: n in backend && prefix <= naming.path(n) ==> n in names)
        <==> !Backend.Obstructed(store.entries, prefix)
    {
      names := [];
      var listed := store.ListRecord(prefix);
      var i := 0;
      while i < |listed|
        invariant 0 <= i <= |listed| && |names| == i
        invariant forall j :: 0 <= j < i ==> naming.path(names[j]) == listed[j]
        invariant forall n :: n in names ==> n in backend && prefix <= naming.path(n) && Has(tail, backend, n)
      {
        ghost var n := MirroredName(store.entries, backend, naming, listed[i]);
        ConfirmedVisible(cfg, run, |run| - 1, n);
        var name := naming.parse(listed[i]).value;
        if name !in tail || tail[name].parentOk {
          names := names + [name];
        }
        i := i + 1;
      }
      ListedAll(store.entries, backend, naming, prefix, listed, names);
    }

    // ---- Start-up ------------------------------------------------------------------------------

    /** A peer starts with its genesis records, unless its weights are inconsistent. */
    static method InitLedger(cfg: Config, naming: Naming) returns (ledger: LedgerImpl?)
      requires naming.Valid() && cfg.confirmWeight >= 1 && cfg.precedingRecordNum >= 1
      ensures ledger == null <==> cfg.appendWeight > cfg.contributionWeight
      ensures ledger != null ==> fresh(ledger) && fresh(ledger.store) && ledger.cfg == cfg && ledger.Valid()
      ensures ledger != null ==>
        |ledger.run| == cfg.numGenesisBlock + 1 && Boots(cfg, ledger.run) && ledger.syncStack == []
    {
      if cfg.appendWeight > cfg.contributionWeight {
        return null;
      }
      var l := new LedgerImpl.Empty(cfg, naming);
      var i := 0;
      while i < cfg.numGenesisBlock
        invariant 0 <= i <= cfg.numGenesisBlock
        invariant fresh(l) && fresh(l.store) && l.cfg == cfg && l.Traced() && |l.run| == i + 1 && l.syncStack == []
        invariant Boots(cfg, l.run) && Below(l.run[i], i)
      {
        ghost var before := l.run;
        ghost var at := l.AddToTailingRecord(GenesisRecord(i), true, Boot(GenesisRecord(i), 0));
        BootGains(cfg, before, i, at, l.run);
        i := i + 1;
      }
      return l;
    }
  }
}
