/**
 What the ledger's confirmations make of a peer's certificate manager: peers that confirmed the same
 certificate and revocation records endorse the same packets, and nobody endorses a packet whose
 certificates it knows to be revoked.
 */
module CertAgreement {
  import opened Records
  import opened RecordCodec
  import opened LedgerState
  import opened LedgerTheorems
  import opened CertFrontier
  import opened LedgerSteps
  import opened LedgerWaiting
  import LedgerEngine
  import CertManager

  // ---- What the manager is fed ---------------------------------------------------------------

  /** The records handed to the certificate manager; a name determines its packet's body. */
  function Feed(reports: seq<Report>, body: Name -> seq<Block>): seq<CertManager.Fed>
    decreases |reports|
  {
    if reports == [] then []
    else
      var before := Feed(reports[..|reports| - 1], body);
      match reports[|reports| - 1]
      case ToManager(r) => before + [CertManager.Fed(r.name, body(r.name))]
      case ToApplication(_) => before
  }

  lemma {:induction false} FeedMembers(log: seq<Confirmation>, body: Name -> seq<Block>, r: CertManager.Fed)
    ensures r in Feed(Reported(log), body) <==>
      Managed(r.name) && r.items == body(r.name) && exists i :: 0 <= i < |log| && log[i].record.name == r.name
    decreases |log|
  {
    if log != [] {
      var front, last := log[..|log| - 1], log[|log| - 1].record;
      FeedMembers(front, body, r);
      FeedReports(Reported(front), last, body);
      if i :| 0 <= i < |log| && log[i].record.name == r.name {
        assert i < |front| ==> front[i].record.name == r.name;
      }
    }
  }

  lemma FeedReports(reports: seq<Report>, r: Record, body: Name -> seq<Block>)
    ensures Feed(reports + Reports(r), body) == Feed(reports, body)
      + (if Managed(r.name) then [CertManager.Fed(r.name, body(r.name))] else [])
  {
    var all := reports + Reports(r);
    if Managed(r.name) {
      assert all[..|all| - 1] == reports + [ToManager(r)];
      assert (reports + [ToManager(r)])[..|reports|] == reports;
    } else {
      assert all[..|all| - 1] == reports;
    }
  }

  /** The manager was fed exactly the confirmed certificate and revocation records. */
  lemma FedIffConfirmed(cfg: Config, run: seq<Node>, i: nat, body: Name -> seq<Block>, r: CertManager.Fed)
    requires cfg.Valid() && Run(cfg, run) && i < |run|
    ensures r in Feed(Reported(run[i].log), body) <==>
      Managed(r.name) && r.items == body(r.name) && r.name in run[i].backend
  {
    RunLogged(cfg, run, i);
    FeedMembers(run[i].log, body, r);
  }

  // ---- Agreement -----------------------------------------------------------------------------

  lemma RunsAgree(cfg: Config, run: seq<Node>, i: nat, cfg': Config, run': seq<Node>, j: nat,
                  crypto: CertManager.Crypto, st: CertManager.State, st': CertManager.State,
                  body: Name -> seq<Block>, d: CertManager.Signed)
    requires cfg.Valid() && Run(cfg, run) && i < |run|
    requires cfg'.Valid() && Run(cfg', run') && j < |run'|
    requires forall n :: Managed(n) ==> (n in run[i].backend <==> n in run'[j].backend)
    requires CertManager.Alike(st, st', d.claimed)
    ensures CertManager.Endorsable(crypto, CertManager.AcceptAll(st, Feed(Reported(run[i].log), body)), d)
      <==> CertManager.Endorsable(crypto, CertManager.AcceptAll(st', Feed(Reported(run'[j].log), body)), d)
  {
    var fed, fed' := Feed(Reported(run[i].log), body), Feed(Reported(run'[j].log), body);
    forall r: CertManager.Fed ensures r in fed <==> r in fed' {
      FedIffConfirmed(cfg, run, i, body, r);
      FedIffConfirmed(cfg', run', j, body, r);
    }
    CertManager.EndorsementConverges(crypto, st, fed, st', fed', d);
  }

  /**
   Two ledgers, with different configurations and different orders of confirmation, that hold the
   same certificate and revocation records: managers that started alike and were handed what each
   ledger reported take the same endorsement decisions.
   */
  lemma PeersAgree(l: LedgerEngine.LedgerImpl, l': LedgerEngine.LedgerImpl, crypto: CertManager.Crypto,
                   st: CertManager.State, st': CertManager.State, body: Name -> seq<Block>, d: CertManager.Signed)
    requires l.Traced() && l'.Traced() && CertManager.Alike(st, st', d.claimed)
    requires forall n :: Managed(n) ==> (n in l.backend <==> n in l'.backend)
    ensures CertManager.Endorsable(crypto, CertManager.AcceptAll(st, Feed(l.reported, body)), d)
      <==> CertManager.Endorsable(crypto, CertManager.AcceptAll(st', Feed(l'.reported, body)), d)
  {
    RunsAgree(l.cfg, l.run, |l.run| - 1, l'.cfg, l'.run, |l'.run| - 1, crypto, st, st', body, d);
  }

  // ---- Revocation takes effect ---------------------------------------------------------------

  /** A peer's certificate manager: its checks, what it starts with, and the packets behind names. */
  datatype Manager = Manager(
    crypto: CertManager.Crypto,
    start: CertManager.State,
    body: Name -> seq<Block>,
    packet: Name -> CertManager.Signed)
  {
    /** The manager once it was handed everything the ledger reported. */
    function At(s: Node): CertManager.State {
      CertManager.AcceptAll(start, Feed(Reported(s.log), body))
    }

    /** The peer was given the certificate at the start, or a confirmed record issues it. */
    ghost predicate Obtained(confirmed: set<Name>, id: Producer, c: Cert) {
      || c in CertManager.Certs(start, id)
      || (c.name.identity == id && exists n :: n in confirmed && c in CertManager.CertsOf(CertManager.Fed(n, body(n))))
    }

    /** Some confirmed record revokes the certificate, or it was revoked from the start. */
    ghost predicate RevokedName(confirmed: set<Name>, c: CertName) {
      c in start.revoked || exists n :: n in confirmed && c in CertManager.RevokedBy(CertManager.Fed(n, body(n)))
    }

    /**
     Of the certificates of the claimed producer that the peer has obtained by the time the records
     in `later` are confirmed, each that matches the packet is revoked by one of the records in
     `confirmed`.
     */
    ghost predicate Revoked(confirmed: set<Name>, later: set<Name>, d: CertManager.Signed) {
      forall c :: Obtained(later, d.claimed, c) && crypto.signs(c, d) ==> RevokedName(confirmed, c.name)
    }
  }

  lemma IssuedIff(m: Manager, cfg: Config, run: seq<Node>, i: nat, c: Cert)
    requires cfg.Valid() && Run(cfg, run) && i < |run|
    ensures c in CertManager.Issued(Feed(Reported(run[i].log), m.body)) <==>
      exists n :: n in run[i].backend && c in CertManager.CertsOf(CertManager.Fed(n, m.body(n)))
  {
    var fed := Feed(Reported(run[i].log), m.body);
    if c in CertManager.Issued(fed) {
      var r :| r in fed && c in CertManager.CertsOf(r);
      FedIffConfirmed(cfg, run, i, m.body, r);
      assert r == CertManager.Fed(r.name, m.body(r.name));
    }
    if n :| n in run[i].backend && c in CertManager.CertsOf(CertManager.Fed(n, m.body(n))) {
      FedIffConfirmed(cfg, run, i, m.body, CertManager.Fed(n, m.body(n)));
    }
  }

  lemma RevokedIff(m: Manager, cfg: Config, run: seq<Node>, i: nat, c: CertName)
    requires cfg.Valid() && Run(cfg, run) && i < |run|
    ensures c in CertManager.RevokedIn(Feed(Reported(run[i].log), m.body)) <==>
      exists n :: n in run[i].backend && c in CertManager.RevokedBy(CertManager.Fed(n, m.body(n)))
  {
    var fed := Feed(Reported(run[i].log), m.body);
    if c in CertManager.RevokedIn(fed) {
      var r :| r in fed && c in CertManager.RevokedBy(r);
      FedIffConfirmed(cfg, run, i, m.body, r);
      assert r == CertManager.Fed(r.name, m.body(r.name));
    }
    if n :| n in run[i].backend && c in CertManager.RevokedBy(CertManager.Fed(n, m.body(n))) {
      FedIffConfirmed(cfg, run, i, m.body, CertManager.Fed(n, m.body(n)));
    }
  }

  /** The manager refuses a packet exactly when every certificate obtained for it is revoked. */
  lemma RefusedIffRevoked(m: Manager, cfg: Config, run: seq<Node>, i: nat, d: CertManager.Signed)
    requires cfg.Valid() && Run(cfg, run) && i < |run|
    ensures !CertManager.Endorsable(m.crypto, m.At(run[i]), d)
      <==> m.Revoked(run[i].backend.Keys, run[i].backend.Keys, d)
  {
    var fed, confirmed := Feed(Reported(run[i].log), m.body), run[i].backend.Keys;
    CertManager.EndorsementByCollection(m.crypto, m.start, fed, d);
    forall c: Cert
      ensures m.Obtained(confirmed, d.claimed, c) <==>
        c in CertManager.Certs(m.start, d.claimed)
        || (c in CertManager.Issued(fed) && c.name.identity == d.claimed)
      ensures m.RevokedName(confirmed, c.name) <==> c.name in m.start.revoked + CertManager.RevokedIn(fed)
    {
      IssuedIff(m, cfg, run, i, c);
      RevokedIff(m, cfg, run, i, c.name);
    }
  }

  /** More confirmed revocations, or fewer certificates obtained, make no difference. */
  lemma RevokedStays(m: Manager, confirmed: set<Name>, later: set<Name>, confirmed': set<Name>, later': set<Name>,
                     d: CertManager.Signed)
    requires m.Revoked(confirmed, later, d) && confirmed <= confirmed' && later' <= later
    ensures m.Revoked(confirmed', later', d)
  {
    forall c | m.Obtained(later', d.claimed, c) && m.crypto.signs(c, d) ensures m.RevokedName(confirmed', c.name) {
      assert m.Obtained(later, d.claimed, c);
      assert m.RevokedName(confirmed, c.name);
    }
  }

  lemma ConfirmedGrows(cfg: Config, run: seq<Node>, i: nat, j: nat)
    requires cfg.Valid() && Run(cfg, run) && i <= j < |run|
    ensures run[i].backend.Keys <= run[j].backend.Keys
  {
    LedgerAppendOnly(cfg, run, i, j);
  }

  /**
   If the revocation of every matching certificate obtained up to state j was confirmed in state i,
   the manager endorses the packet in no state between the two.
   */
  lemma RevokedNotEndorsable(m: Manager, cfg: Config, run: seq<Node>, i: nat, k: nat, j: nat, d: CertManager.Signed)
    requires cfg.Valid() && Run(cfg, run) && i <= k <= j < |run|
    requires m.Revoked(run[i].backend.Keys, run[j].backend.Keys, d)
    ensures !CertManager.Endorsable(m.crypto, m.At(run[k]), d)
  {
    ConfirmedGrows(cfg, run, i, k);
    ConfirmedGrows(cfg, run, k, j);
    var known := run[k].backend.Keys;
    RevokedStays(m, run[i].backend.Keys, run[j].backend.Keys, known, known, d);
    RefusedIffRevoked(m, cfg, run, k, d);
  }

  // ---- What the engine makes of the manager's answers ------------------------------------------

  /**
   During a call that takes the run from `run` to `longer`, the ledger asks the manager, which is
   fed on the way; whatever it agrees to it agrees to in some state of the call.
   */
  ghost predicate Asked(m: Manager, run: seq<Node>, answers: Answers, longer: seq<Node>) {
    forall r :: answers.signs(r) ==> Agreed(m, run, longer, r.name)
  }

  ghost predicate Agreed(m: Manager, run: seq<Node>, longer: seq<Node>, n: Name) {
    exists k :: |run| - 1 <= k < |longer| && k >= 0
      && CertManager.Endorsable(m.crypto, m.At(longer[k]), m.packet(n))
  }

  ghost predicate NeverSigned(answers: Answers, n: Name) {
    forall r: Record :: r.name == n ==> !answers.signs(r)
  }

  /** From state i on, before state j, the manager refuses the packet of that name. */
  ghost predicate Refused(m: Manager, run: seq<Node>, i: nat, j: nat, n: Name) {
    j <= |run| && forall k :: i <= k < j ==> !CertManager.Endorsable(m.crypto, m.At(run[k]), m.packet(n))
  }

  /** Of what the manager refuses from before the call on, it agrees to nothing in the call. */
  lemma RefusedNeverSigned(m: Manager, run: seq<Node>, answers: Answers, longer: seq<Node>, i: nat, n: Name)
    requires i < |run| && Refused(m, longer, i, |longer|, n) && Asked(m, run, answers, longer)
    ensures NeverSigned(answers, n)
  {
    assert !Agreed(m, run, longer, n);
  }

  /** A step that heeds the answers verifies no record the manager did not agree to. */
  lemma AnsweredUnverified(cfg: Config, longer: seq<Node>, answers: Answers, k: nat, n: Name)
    requires 0 < k < |longer| && AnsweredAt(cfg, longer, answers, k) && NeverSigned(answers, n)
    ensures n in longer[k].verified ==> n in longer[k - 1].verified
  {
  }

  lemma {:induction false} FollowsUnverified(cfg: Config, run: seq<Node>, answers: Answers, longer: seq<Node>,
                                             j: nat, n: Name)
    requires Follows(cfg, run, answers, longer) && NeverSigned(answers, n) && |run| - 1 <= j < |longer|
    ensures n in longer[j].verified ==> n in run[|run| - 1].verified
    decreases j
  {
    if j >= |run| {
      FollowsUnverified(cfg, run, answers, longer, j - 1, n);
      AnsweredUnverified(cfg, longer, answers, j, n);
    }
  }

  lemma ReceiveUnverified(cfg: Config, run: seq<Node>, r: Record, longer: seq<Node>)
    requires 0 < |run| < |longer| && exists at :: Step(cfg, run[|run| - 1], Receive(r, at), longer[|run|])
    ensures longer[|run|].verified == run[|run| - 1].verified
  {
  }

  lemma PrefixLast(run: seq<Node>, k: nat)
    requires k < |run|
    ensures run[..k + 1][|run[..k + 1]| - 1] == run[k]
  {
  }

  lemma ArrivesUnverified(
    cfg: Config, run: seq<Node>, r: Record, answers: Answers, longer: seq<Node>, now: int, n: Name)
    requires Arrives(cfg, run, r, answers, longer, now) && NeverSigned(answers, n)
    ensures n in longer[|longer| - 1].verified ==> n in run[|run| - 1].verified
  {
    PrefixLast(longer, |run|);
    FollowsUnverified(cfg, longer[..|run| + 1], answers, longer, |longer| - 1, n);
    ReceiveUnverified(cfg, run, r, longer);
  }

  lemma RefusedNotAdmitted(m: Manager, cfg: Config, run: seq<Node>, r: Record, answers: Answers, longer: seq<Node>,
                           now: int, i: nat, n: Name)
    requires Arrives(cfg, run, r, answers, longer, now) && Asked(m, run, answers, longer)
    requires i < |run| && Refused(m, longer, i, |longer|, n)
    ensures NeverSigned(answers, n)
    ensures n in longer[|longer| - 1].verified ==> n in run[|run| - 1].verified
  {
    RefusedNeverSigned(m, run, answers, longer, i, n);
    ArrivesUnverified(cfg, run, r, answers, longer, now, n);
  }

  lemma RevokedRefused(m: Manager, cfg: Config, run: seq<Node>, i: nat, j: nat, n: Name)
    requires cfg.Valid() && Run(cfg, run) && i <= j < |run|
    requires m.Revoked(run[i].backend.Keys, run[j].backend.Keys, m.packet(n))
    ensures Refused(m, run, i, j + 1, n)
  {
    forall k | i <= k <= j ensures !CertManager.Endorsable(m.crypto, m.At(run[k]), m.packet(n)) {
      RevokedNotEndorsable(m, cfg, run, i, k, j, m.packet(n));
    }
  }

  /**
   A fetched record and all the waiting records handled with it: none of them is agreed to or becomes
   verified in the call if its certificates, as obtained by the end of the call, were all revoked
   before it.
   */
  lemma RevokedNotAdmitted(m: Manager, cfg: Config, run: seq<Node>, r: Record, answers: Answers, longer: seq<Node>,
                           now: int, i: nat, n: Name)
    requires cfg.Valid() && Run(cfg, longer) && Arrives(cfg, run, r, answers, longer, now)
    requires Asked(m, run, answers, longer) && i < |run|
    requires m.Revoked(longer[i].backend.Keys, longer[|longer| - 1].backend.Keys, m.packet(n))
    ensures NeverSigned(answers, n)
    ensures n in longer[|longer| - 1].verified ==> n in run[|run| - 1].verified
  {
    RevokedRefused(m, cfg, longer, i, |longer| - 1, n);
    RefusedNotAdmitted(m, cfg, run, r, answers, longer, now, i, n);
  }

  // ---- Over a peer's whole life ----------------------------------------------------------------

  /** One call to the ledger once it is set up: nothing happens, a record is created, or one arrives. */
  ghost predicate Called(m: Manager, cfg: Config, run: seq<Node>, longer: seq<Node>) {
    || longer == run
    || (exists r, at :: Steps(cfg, run, Create(r, at), longer))
    || (exists r, answers, now :: Arrives(cfg, run, r, answers, longer, now) && Asked(m, run, answers, longer))
  }

  /** The run of one ledger and the lengths it had after each of its calls. */
  ghost predicate Calls(m: Manager, cfg: Config, run: seq<Node>, lengths: seq<nat>) {
    && (forall k :: 0 <= k < |lengths| ==> 0 < lengths[k] <= |run|)
    && (forall k, l :: 0 <= k <= l < |lengths| ==> lengths[k] <= lengths[l])
    && (forall k: nat {:trigger CalledAt(m, cfg, run, lengths, k)} ::
          0 < k < |lengths| ==> CalledAt(m, cfg, run, lengths, k))
  }

  ghost predicate CalledAt(m: Manager, cfg: Config, run: seq<Node>, lengths: seq<nat>, k: nat) {
    && 0 < k < |lengths| && lengths[k - 1] <= |run| && lengths[k] <= |run|
    && Called(m, cfg, run[..lengths[k - 1]], run[..lengths[k]])
  }

  lemma CreateUnverified(cfg: Config, s: Node, e: Event, s': Node, n: Name)
    requires e.Create? && Step(cfg, s, e, s') && n.producer != cfg.self
    ensures n in s'.verified ==> n in s.verified
  {
  }

  lemma CalledUnverified(m: Manager, cfg: Config, run: seq<Node>, longer: seq<Node>, i: nat, n: Name)
    requires Called(m, cfg, run, longer) && i < |run| <= |longer| && n.producer != cfg.self
    requires Refused(m, longer, i, |longer|, n)
    ensures n in longer[|longer| - 1].verified ==> n in run[|run| - 1].verified
  {
    if r, at :| Steps(cfg, run, Create(r, at), longer) {
      CreateUnverified(cfg, run[|run| - 1], Create(r, at), longer[|longer| - 1], n);
    } else if r, answers, now :| Arrives(cfg, run, r, answers, longer, now) && Asked(m, run, answers, longer) {
      RefusedNotAdmitted(m, cfg, run, r, answers, longer, now, i, n);
    }
  }

  lemma RefusedPrefix(m: Manager, run: seq<Node>, i: nat, j: nat, length: nat, n: Name)
    requires Refused(m, run, i, j, n) && length <= j
    ensures Refused(m, run[..length], i, length, n)
  {
    forall k | i <= k < length ensures !CertManager.Endorsable(m.crypto, m.At(run[..length][k]), m.packet(n)) {
      assert run[..length][k] == run[k];
    }
  }

  /** The record of that name did not become verified in the k-th call. */
  predicate Unadmitted(run: seq<Node>, lengths: seq<nat>, k: nat, n: Name)
    requires 0 < k < |lengths| && 0 < lengths[k - 1] <= |run| && 0 < lengths[k] <= |run|
  {
    n in run[lengths[k] - 1].verified ==> n in run[lengths[k - 1] - 1].verified
  }

  lemma PrefixesUnadmitted(run: seq<Node>, lengths: seq<nat>, k: nat, n: Name, before: seq<Node>, after: seq<Node>)
    requires 0 < k < |lengths| && 0 < lengths[k - 1] <= |run| && 0 < lengths[k] <= |run|
    requires before == run[..lengths[k - 1]] && after == run[..lengths[k]]
    requires n in after[|after| - 1].verified ==> n in before[|before| - 1].verified
    ensures Unadmitted(run, lengths, k, n)
  {
  }

  lemma CalledAtUnverified(m: Manager, cfg: Config, run: seq<Node>, lengths: seq<nat>, k: nat, i: nat, j: nat, n: Name)
    requires CalledAt(m, cfg, run, lengths, k) && i < lengths[k - 1] <= lengths[k] <= j
    requires Refused(m, run, i, j, n) && n.producer != cfg.self
    ensures Unadmitted(run, lengths, k, n)
  {
    var before, after := run[..lengths[k - 1]], run[..lengths[k]];
    RefusedPrefix(m, run, i, j, lengths[k], n);
    CalledUnverified(m, cfg, before, after, i, n);
    PrefixesUnadmitted(run, lengths, k, n, before, after);
  }

  lemma {:induction false} UnadmittedForever(run: seq<Node>, lengths: seq<nat>, a: nat, b: nat, n: Name)
    requires forall k :: 0 <= k < |lengths| ==> 0 < lengths[k] <= |run|
    requires forall k: nat {:trigger Unadmitted(run, lengths, k, n)} ::
      a < k <= b < |lengths| ==> Unadmitted(run, lengths, k, n)
    requires a <= b < |lengths|
    ensures n in run[lengths[b] - 1].verified ==> n in run[lengths[a] - 1].verified
    decreases b
  {
    if a < b {
      UnadmittedForever(run, lengths, a, b - 1, n);
      assert Unadmitted(run, lengths, b, n);
    }
  }

  /**
   If after call a a peer has confirmed the revocation of every certificate that matches the packet of
   another peer's record, among those it has at the start and those issued by records it confirms up
   to call b, the record does not become verified there in between, whatever is created or fetched.
   */
  lemma RevokedForever(m: Manager, cfg: Config, run: seq<Node>, lengths: seq<nat>, a: nat, b: nat, n: Name)
    requires cfg.Valid() && Run(cfg, run) && Calls(m, cfg, run, lengths) && a <= b < |lengths|
    requires m.Revoked(run[lengths[a] - 1].backend.Keys, run[lengths[b] - 1].backend.Keys, m.packet(n))
    requires n.producer != cfg.self
    ensures n in run[lengths[b] - 1].verified ==> n in run[lengths[a] - 1].verified
  {
    RevokedRefused(m, cfg, run, lengths[a] - 1, lengths[b] - 1, n);
    forall k: nat | a < k <= b ensures Unadmitted(run, lengths, k, n) {
      CalledAtUnverified(m, cfg, run, lengths, k, lengths[a] - 1, lengths[b], n);
    }
    UnadmittedForever(run, lengths, a, b, n);
  }
}
