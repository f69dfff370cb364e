/**
 The default certificate manager: a replica fed with confirmed certificate and revocation records,
 whose endorsement decisions do not depend on the order it was fed in.
 */
module CertManager {
  import opened Records
  import opened RecordCodec

  /** A record as the manager sees it: its name and the items of its body. */
  datatype Fed = Fed(name: Name, items: seq<Block>)

  /** A signed packet, from the producer its name or key locator claims. */
  datatype Signed = Signed(claimed: Producer, packet: nat)

  /** Signature checks are those of the library; nothing is assumed about them. */
  datatype Crypto = Crypto(signs: (Cert, Signed) -> bool, issues: (Cert, Cert) -> bool)

  datatype State = State(certs: map<Producer, seq<Cert>>, revoked: set<CertName>)

  // ---- What the two kinds of records bring ---------------------------------------------------

  /** The certificates of a well-formed certificate record; other records bring none. */
  function CertsOf(r: Fed): seq<Cert> {
    if r.name.rtype == Certificate && CertificateItems(r.items) then CertsIn(r.items) else []
  }

  /** Any name that parses is taken for a revoked one; a single other item spoils the record. */
  predicate RevocationItems(items: seq<Block>) {
    forall b :: b in items ==> b.CertNameBlock? || b.NameBlock?
  }

  /**
   The certificate names revoked by a well-formed revocation record; other records revoke none. Names
   that no certificate can carry are taken over with them and make no difference.
   */
  function RevokedBy(r: Fed): set<CertName> {
    if r.name.rtype == Revocation && RevocationItems(r.items)
    then set b | b in r.items && b.CertNameBlock? :: b.c
    else {}
  }

  function Certs(st: State, id: Producer): seq<Cert> {
    if id in st.certs then st.certs[id] else []
  }

  function Insert(st: State, cert: Cert): State {
    State(st.certs[cert.name.identity := Certs(st, cert.name.identity) + [cert]], st.revoked)
  }

  function InsertAll(st: State, certs: seq<Cert>): State
    decreases |certs|
  {
    if certs == [] then st
    else
      var before := InsertAll(st, certs[..|certs| - 1]);
      var cert := certs[|certs| - 1];
      if cert.name in st.revoked then before else Insert(before, cert)
  }

  /** acceptRecord as a function of the state. */
  function Accept(st: State, r: Fed): State {
    State(InsertAll(st, CertsOf(r)).certs, st.revoked + RevokedBy(r))
  }

  function AcceptAll(st: State, rs: seq<Fed>): State
    decreases |rs|
  {
    if rs == [] then st else Accept(AcceptAll(st, rs[..|rs| - 1]), rs[|rs| - 1])
  }

  /** The decision of endorseSignature and of the Interest verifySignature. */
  ghost predicate Endorsable(crypto: Crypto, st: State, d: Signed) {
    exists c :: c in Certs(st, d.claimed) && c.name !in st.revoked && crypto.signs(c, d)
  }

  /** The decision of the data verifySignature, which also accepts revoked certificates. */
  ghost predicate Verifiable(crypto: Crypto, st: State, d: Signed) {
    exists c :: c in Certs(st, d.claimed) && crypto.signs(c, d)
  }

  /** A certificate record of nothing but certificates and well-named locators that holds c. */
  ghost predicate Holding(r: Fed, c: Cert) {
    && r.name.rtype == Certificate
    && (forall b :: b in r.items ==> b.CertBlock? || (b.LocatorBlock? && !b.l.BadName?))
    && CertBlock(c) in r.items
  }

  /** A revocation record of nothing but names that names the certificate. */
  ghost predicate Naming(r: Fed, n: CertName) {
    && r.name.rtype == Revocation
    && (forall b :: b in r.items ==> b.CertNameBlock? || b.NameBlock?)
    && CertNameBlock(n) in r.items
  }

  /** All that accepting r changes: what it names is revoked, what it holds and is not revoked is brought. */
  ghost predicate Took(st: State, r: Fed, st': State) {
    && (forall n :: n in st'.revoked <==> n in st.revoked || Naming(r, n))
    && (forall id, c :: c in Certs(st', id) <==>
          c in Certs(st, id) || (Holding(r, c) && c.name.identity == id && c.name !in st.revoked))
  }

  // ---- The manager ---------------------------------------------------------------------------

  class DefaultCertificateManager {
    const crypto: Crypto
    const peerPrefix: Producer
    const anchorCert: Cert
    var peerCertificates: map<Producer, seq<Cert>>
    var revokedCertificates: set<CertName>

    ghost function Now(): State
      reads this
    {
      State(peerCertificates, revokedCertificates)
    }

    constructor (crypto: Crypto, peerPrefix: Producer, anchorCert: Cert, startingPeers: seq<Cert>)
      ensures this.crypto == crypto && this.peerPrefix == peerPrefix && this.anchorCert == anchorCert
      ensures Now() == InsertAll(State(map[], {}), [anchorCert] + startingPeers)
    {
      this.crypto, this.peerPrefix, this.anchorCert := crypto, peerPrefix, anchorCert;
      peerCertificates, revokedCertificates := map[], {};
      new;
      var initial := [anchorCert] + startingPeers;
      var i := 0;
      while i < |initial|
        invariant 0 <= i <= |initial|
        invariant Now() == InsertAll(State(map[], {}), initial[..i])
      {
        assert initial[..i + 1][..i] == initial[..i];
        PushCertificate(initial[i]);
        i := i + 1;
      }
      assert initial[..i] == initial;
    }

    /** Sets the manager up, unless the trust anchor is out of date. */
    static method Open(crypto: Crypto, peerPrefix: Producer, anchorCert: Cert, anchorValid: bool,
                       startingPeers: seq<Cert>)
      returns (manager: DefaultCertificateManager?)
      ensures manager == null <==> !anchorValid
      ensures manager != null ==> fresh(manager) && manager.crypto == crypto
      ensures manager != null ==> manager.peerPrefix == peerPrefix && manager.anchorCert == anchorCert
      ensures manager != null ==> manager.Now() == InsertAll(State(map[], {}), [anchorCert] + startingPeers)
      ensures manager != null ==> manager.revokedCertificates == {} && forall id, c ::
        c in Certs(manager.Now(), id) <==> (c == anchorCert || c in startingPeers) && c.name.identity == id
    {
      if !anchorValid {
        return null;
      }
      manager := new DefaultCertificateManager(crypto, peerPrefix, anchorCert, startingPeers);
      ghost var initial := [anchorCert] + startingPeers;
      forall id, c ensures c in Certs(InsertAll(State(map[], {}), initial), id) <==>
        c in initial && c.name.identity == id
      {
        InsertAllCerts(State(map[], {}), initial, id, c);
      }
      InsertAllCerts(State(map[], {}), initial, peerPrefix, anchorCert);
    }

    method PushCertificate(cert: Cert)
      modifies this`peerCertificates
      ensures Now() == Insert(old(Now()), cert)
    {
      var id := cert.name.identity;
      var held := if id in peerCertificates then peerCertificates[id] else [];
      peerCertificates := peerCertificates[id := held + [cert]];
    }

    method EndorseSignature(d: Signed) returns (ok: bool)
      ensures ok <==> Endorsable(crypto, Now(), d)
      ensures ok <==> d.claimed in peerCertificates && exists c ::
        c in peerCertificates[d.claimed] && c.name !in revokedCertificates && crypto.signs(c, d)
    {
      if d.claimed !in peerCertificates {
        return false;
      }
      var certs := peerCertificates[d.claimed];
      var i := 0;
      while i < |certs|
        invariant 0 <= i <= |certs|
        invariant forall j :: 0 <= j < i ==> certs[j].name in revokedCertificates || !crypto.signs(certs[j], d)
      {
        if certs[i].name !in revokedCertificates && crypto.signs(certs[i], d) {
          return true;
        }
        i := i + 1;
      }
      return false;
    }

    method VerifySignature(d: Signed) returns (ok: bool)
      ensures ok <==> Verifiable(crypto, Now(), d)
      ensures ok <==> d.claimed in peerCertificates && exists c ::
        c in peerCertificates[d.claimed] && crypto.signs(c, d)
    {
      if d.claimed !in peerCertificates {
        return false;
      }
      var certs := peerCertificates[d.claimed];
      var i := 0;
      while i < |certs|
        invariant 0 <= i <= |certs|
        invariant forall j :: 0 <= j < i ==> !crypto.signs(certs[j], d)
      {
        if crypto.signs(certs[i], d) {
          return true;
        }
        i := i + 1;
      }
      return false;
    }

    /** Takes over the certificates or revocations of a confirmed record; a malformed one is ignored. */
    method AcceptRecord(r: Fed)
      modifies this
      ensures Now() == Accept(old(Now()), r)
      ensures Took(old(Now()), r, Now())
    {
      AcceptTakes(Now(), r);
      if r.name.rtype == Certificate {
        var record := new CertificateRecord();
        var ok := record.SplitItems(Wire([], r.items));
        if !ok {
          return;
        }
        var certs := record.certList;
        var i := 0;
        while i < |certs|
          invariant 0 <= i <= |certs| && certs == CertsIn(r.items)
          invariant revokedCertificates == old(revokedCertificates)
          invariant Now() == InsertAll(old(Now()), certs[..i])
        {
          assert certs[..i + 1][..i] == certs[..i];
          if certs[i].name !in revokedCertificates {
            PushCertificate(certs[i]);
          }
          i := i + 1;
        }
        assert certs[..i] == certs;
      } else if r.name.rtype == Revocation {
        if exists b :: b in r.items && !b.CertNameBlock? && !b.NameBlock? {
          return;
        }
        var i := 0;
        while i < |r.items|
          invariant 0 <= i <= |r.items|
          invariant peerCertificates == old(peerCertificates)
          invariant revokedCertificates ==
            old(revokedCertificates) + set b | b in r.items[..i] && b.CertNameBlock? :: b.c
        {
          assert r.items[..i + 1] == r.items[..i] + [r.items[i]];
          if r.items[i].CertNameBlock? {
            revokedCertificates := revokedCertificates + {r.items[i].c};
          }
          i := i + 1;
        }
        assert r.items[..i] == r.items;
      }
    }

    /** The format check of certificate and revocation records before they enter the ledger. */
    method VerifyRecordFormat(r: Fed) returns (ok: bool)
      ensures ok <==> FormatOk(crypto, anchorCert, r)
      ensures ok <==>
        if r.name.rtype == Certificate then
          && r.name.producer == anchorCert.name.identity
          && (forall b :: b in r.items ==> b.CertBlock? || (b.LocatorBlock? && !b.l.BadName?))
          && (forall c :: CertBlock(c) in r.items ==> crypto.issues(anchorCert, c))
        else if r.name.rtype == Revocation then
          forall b :: b in r.items ==>
            && b.CertNameBlock? && b.c.digest.Some? && b.c.wellFormed
            && (r.name.producer == anchorCert.name.identity || b.c.identity == r.name.producer)
        else true
    {
      FormatMeans(crypto, anchorCert, r);
      if r.name.rtype == Certificate {
        if anchorCert.name.identity != r.name.producer {
          return false;
        }
        var record := new CertificateRecord();
        var split := record.SplitItems(Wire([], r.items));
        if !split {
          return false;
        }
        var i := 0;
        while i < |record.certList|
          invariant 0 <= i <= |record.certList|
          invariant forall j :: 0 <= j < i ==> crypto.issues(anchorCert, record.certList[j])
        {
          if !crypto.issues(anchorCert, record.certList[i]) {
            return false;
          }
          i := i + 1;
        }
      } else if r.name.rtype == Revocation {
        var isAnchor := anchorCert.name.identity == r.name.producer;
        if exists b :: b in r.items && !b.CertNameBlock? && !b.NameBlock? {
          return false;
        }
        var i := 0;
        while i < |r.items|
          invariant 0 <= i <= |r.items|
          invariant forall j :: 0 <= j < i ==>
            r.items[j].CertNameBlock? && Revocable(r.items[j].c, anchorCert, r.name.producer)
        {
          if !r.items[i].CertNameBlock? {
            return false;
          }
          var c := r.items[i].c;
          if c.digest.None? || !c.wellFormed {
            return false;
          }
          if !isAnchor && c.identity != r.name.producer {
            return false;
          }
          i := i + 1;
        }
      }
      return true;
    }

    method AuthorizedToGenerate() returns (ok: bool)
      ensures ok <==> Certs(Now(), peerPrefix) != []
    {
      ok := peerPrefix in peerCertificates && peerCertificates[peerPrefix] != [];
    }
  }

  predicate Revocable(c: CertName, anchor: Cert, producer: Producer) {
    c.digest.Some? && c.wellFormed && (producer == anchor.name.identity || c.identity == producer)
  }

  predicate FormatOk(crypto: Crypto, anchor: Cert, r: Fed) {
    if r.name.rtype == Certificate then
      && r.name.producer == anchor.name.identity
      && CertificateItems(r.items)
      && forall c :: c in CertsIn(r.items) ==> crypto.issues(anchor, c)
    else if r.name.rtype == Revocation then
      && RevocationItems(r.items)
      && forall b :: b in r.items ==> b.CertNameBlock? && Revocable(b.c, anchor, r.name.producer)
    else true
  }

  lemma FormatMeans(crypto: Crypto, anchor: Cert, r: Fed)
    ensures FormatOk(crypto, anchor, r) <==>
      if r.name.rtype == Certificate then
        && r.name.producer == anchor.name.identity
        && (forall b :: b in r.items ==> b.CertBlock? || (b.LocatorBlock? && !b.l.BadName?))
        && (forall c :: CertBlock(c) in r.items ==> crypto.issues(anchor, c))
      else if r.name.rtype == Revocation then
        forall b :: b in r.items ==>
          && b.CertNameBlock? && b.c.digest.Some? && b.c.wellFormed
          && (r.name.producer == anchor.name.identity || b.c.identity == r.name.producer)
      else true
  {
    forall c ensures c in CertsIn(r.items) <==> CertBlock(c) in r.items {
      SplitMembers(r.items, c, NoName);
    }
  }

  // ---- What one accepted record does -----------------------------------------------------------

  lemma CertsOfMeans(r: Fed, c: Cert)
    ensures c in CertsOf(r) <==> Holding(r, c)
  {
    SplitMembers(r.items, c, NoName);
  }

  lemma RevokedByMeans(r: Fed, n: CertName)
    ensures n in RevokedBy(r) <==> Naming(r, n)
  {
    assert CertNameBlock(n).c == n;
  }

  lemma AcceptBrings(st: State, r: Fed, id: Producer, c: Cert)
    ensures c in Certs(Accept(st, r), id) <==>
      c in Certs(st, id) || (Holding(r, c) && c.name.identity == id && c.name !in st.revoked)
  {
    AcceptCerts(st, r, id, c);
    CertsOfMeans(r, c);
  }

  /** Accepting a record takes over all it holds and nothing else. */
  lemma AcceptTakes(st: State, r: Fed)
    ensures Took(st, r, Accept(st, r))
  {
    forall n ensures n in RevokedBy(r) <==> Naming(r, n) {
      RevokedByMeans(r, n);
    }
    forall id, c ensures c in Certs(Accept(st, r), id) <==>
      c in Certs(st, id) || (Holding(r, c) && c.name.identity == id && c.name !in st.revoked)
    {
      AcceptBrings(st, r, id, c);
    }
  }

  // ---- Independence of order -----------------------------------------------------------------

  lemma FrontAndLast<T>(xs: seq<T>)
    requires xs != []
    ensures xs == xs[..|xs| - 1] + [xs[|xs| - 1]]
  {
  }

  lemma {:induction false} InsertAllCerts(st: State, certs: seq<Cert>, id: Producer, c: Cert)
    ensures c in Certs(InsertAll(st, certs), id) <==>
      c in Certs(st, id) || (c in certs && c.name.identity == id && c.name !in st.revoked)
    ensures InsertAll(st, certs).revoked == st.revoked
    decreases |certs|
  {
    if certs != [] {
      InsertAllCerts(st, certs[..|certs| - 1], id, c);
      FrontAndLast(certs);
    }
  }

  /** The same records, in any order and number. */
  ghost predicate SameRecords(rs: seq<Fed>, rs': seq<Fed>) {
    forall r :: r in rs <==> r in rs'
  }

  /** The certificates that records of a collection bring, and the names they revoke. */
  ghost function Issued(rs: seq<Fed>): set<Cert> {
    set r, c | r in rs && c in CertsOf(r) :: c
  }

  ghost function RevokedIn(rs: seq<Fed>): set<CertName> {
    set r, n | r in rs && n in RevokedBy(r) :: n
  }

  lemma {:induction false} AcceptAllRevoked(st: State, rs: seq<Fed>)
    ensures AcceptAll(st, rs).revoked == st.revoked + RevokedIn(rs)
    decreases |rs|
  {
    if rs != [] {
      AcceptAllRevoked(st, rs[..|rs| - 1]);
      FrontAndLast(rs);
    }
  }

  /** Some record brought the certificate before any accepted record had revoked it. */
  ghost predicate Brought(st: State, rs: seq<Fed>, c: Cert) {
    exists i :: 0 <= i < |rs| && c in CertsOf(rs[i]) && c.name !in AcceptAll(st, rs[..i]).revoked
  }

  lemma BroughtStep(st: State, front: seq<Fed>, last: Fed, c: Cert)
    ensures Brought(st, front + [last], c) <==>
      Brought(st, front, c) || (c in CertsOf(last) && c.name !in AcceptAll(st, front).revoked)
  {
    var rs := front + [last];
    assert rs[..|front|] == front && rs[|front|] == last;
    assert forall i :: 0 <= i < |front| ==> rs[i] == front[i] && rs[..i] == front[..i];
  }

  lemma AcceptCerts(st: State, r: Fed, id: Producer, c: Cert)
    ensures c in Certs(Accept(st, r), id) <==>
      c in Certs(st, id) || (c in CertsOf(r) && c.name.identity == id && c.name !in st.revoked)
  {
    InsertAllCerts(st, CertsOf(r), id, c);
  }

  lemma AcceptAllStep(st: State, front: seq<Fed>, last: Fed)
    ensures AcceptAll(st, front + [last]) == Accept(AcceptAll(st, front), last)
  {
    assert (front + [last])[..|front|] == front;
  }

  lemma HeldStep(st: State, front: seq<Fed>, last: Fed, id: Producer, c: Cert)
    requires c in Certs(AcceptAll(st, front), id) <==>
      c in Certs(st, id) || (c.name.identity == id && Brought(st, front, c))
    ensures c in Certs(AcceptAll(st, front + [last]), id) <==>
      c in Certs(st, id) || (c.name.identity == id && Brought(st, front + [last], c))
  {
    AcceptAllStep(st, front, last);
    AcceptCerts(AcceptAll(st, front), last, id, c);
    BroughtStep(st, front, last, c);
  }

  /** A certificate is held exactly when it was initially or when some record brought it unrevoked. */
  lemma {:induction false} AcceptAllCerts(st: State, rs: seq<Fed>, id: Producer, c: Cert)
    ensures c in Certs(AcceptAll(st, rs), id) <==>
      c in Certs(st, id) || (c.name.identity == id && Brought(st, rs, c))
    decreases |rs|
  {
    if rs != [] {
      var front, last := rs[..|rs| - 1], rs[|rs| - 1];
      AcceptAllCerts(st, front, id, c);
      HeldStep(st, front, last, id, c);
      FrontAndLast(rs);
    }
  }

  /**
   endorseSignature answers by the collection of accepted records alone: a certificate that was
   there initially or came with any of them, and that none of them revokes, matches the packet.
   */
  lemma EndorsementByCollection(crypto: Crypto, st: State, rs: seq<Fed>, d: Signed)
    ensures Endorsable(crypto, AcceptAll(st, rs), d) <==>
      exists c ::
        && (c in Certs(st, d.claimed) || (c in Issued(rs) && c.name.identity == d.claimed))
        && c.name !in st.revoked + RevokedIn(rs)
        && crypto.signs(c, d)
  {
    AcceptAllRevoked(st, rs);
    forall c: Cert | c.name !in st.revoked + RevokedIn(rs)
      ensures c in Certs(AcceptAll(st, rs), d.claimed) <==>
        c in Certs(st, d.claimed) || (c in Issued(rs) && c.name.identity == d.claimed)
    {
      UnrevokedCerts(st, rs, d.claimed, c);
    }
  }

  lemma UnrevokedCerts(st: State, rs: seq<Fed>, id: Producer, c: Cert)
    requires c.name !in st.revoked + RevokedIn(rs)
    ensures c in Certs(AcceptAll(st, rs), id) <==> c in Certs(st, id) || (c in Issued(rs) && c.name.identity == id)
  {
    AcceptAllCerts(st, rs, id, c);
    if c in Issued(rs) {
      var r :| r in rs && c in CertsOf(r);
      var i :| 0 <= i < |rs| && rs[i] == r;
      AcceptAllRevoked(st, rs[..i]);
    }
  }

  /** Both start with the same revocations and the same certificates of a producer, in any order. */
  ghost predicate Alike(st: State, st': State, id: Producer) {
    st.revoked == st'.revoked && forall c :: c in Certs(st, id) <==> c in Certs(st', id)
  }

  /**
   After a revocation record that holds nothing but names, a packet is refused, whatever is accepted
   later, if every certificate of the claimed producer that matches it, among those held and those the
   later records bring, is named in the record or was revoked before.
   */
  lemma RevocationRefuses(crypto: Crypto, st: State, r: Fed, later: seq<Fed>, d: Signed)
    requires r.name.rtype == Revocation && forall b :: b in r.items ==> b.CertNameBlock? || b.NameBlock?
    requires forall c ::
      (crypto.signs(c, d) && (c in Certs(st, d.claimed) || (c in Issued(later) && c.name.identity == d.claimed))
       ==> CertNameBlock(c.name) in r.items || c.name in st.revoked)
    ensures !Endorsable(crypto, AcceptAll(Accept(st, r), later), d)
  {
    EndorsementByCollection(crypto, Accept(st, r), later, d);
    forall c: Cert
      ensures c in Certs(Accept(st, r), d.claimed) <==> c in Certs(st, d.claimed)
      ensures c.name in Accept(st, r).revoked <==> c.name in st.revoked || CertNameBlock(c.name) in r.items
    {
      AcceptBrings(st, r, d.claimed, c);
      RevokedByMeans(r, c.name);
    }
  }

  /** Two orders, or repetitions, of the same records lead to the same endorsement decisions. */
  lemma EndorsementConverges(crypto: Crypto, st: State, rs: seq<Fed>, st': State, rs': seq<Fed>, d: Signed)
    requires Alike(st, st', d.claimed) && SameRecords(rs, rs')
    ensures Endorsable(crypto, AcceptAll(st, rs), d) <==> Endorsable(crypto, AcceptAll(st', rs'), d)
  {
    EndorsementByCollection(crypto, st, rs, d);
    EndorsementByCollection(crypto, st', rs', d);
    assert Issued(rs) == Issued(rs') && RevokedIn(rs) == RevokedIn(rs');
  }

  /** What can be endorsed can be verified, and what can be verified stays verifiable. */
  lemma VerificationStable(crypto: Crypto, st: State, r: Fed, d: Signed)
    ensures Endorsable(crypto, st, d) ==> Verifiable(crypto, st, d)
    ensures Verifiable(crypto, st, d) ==> Verifiable(crypto, Accept(st, r), d)
  {
    if Verifiable(crypto, st, d) {
      var c :| c in Certs(st, d.claimed) && crypto.signs(c, d);
      InsertAllCerts(st, CertsOf(r), d.claimed, c);
      assert c in Certs(Accept(st, r), d.claimed);
    }
  }

  // ---- When verification does not depend on the order ------------------------------------------

  /** A certificate of the claimed producer, initial or issued and not among the excluded, matches. */
  ghost predicate Matched(crypto: Crypto, st: State, rs: seq<Fed>, excluded: set<CertName>, d: Signed) {
    exists c ::
      && (c in Certs(st, d.claimed)
          || (c in Issued(rs) && c.name.identity == d.claimed && c.name !in excluded))
      && crypto.signs(c, d)
  }

  /** The records of a collection that are revocations, or those that are not, in order. */
  function Part(rs: seq<Fed>, revocations: bool): (part: seq<Fed>)
    ensures forall r :: r in part <==> r in rs && (r.name.rtype == Revocation <==> revocations)
  {
    if rs == [] then []
    else if (rs[0].name.rtype == Revocation) == revocations then [rs[0]] + Part(rs[1..], revocations)
    else Part(rs[1..], revocations)
  }

  /** All revocations first, or all of them last. */
  function Ordered(rs: seq<Fed>, revocationsFirst: bool): (all: seq<Fed>)
    ensures SameRecords(rs, all)
  {
    Part(rs, revocationsFirst) + Part(rs, !revocationsFirst)
  }

  /** Whatever the order: what was never revoked is brought, and only what was not revoked at first. */
  lemma BroughtBounds(st: State, rs: seq<Fed>, c: Cert)
    ensures Brought(st, rs, c) ==> c in Issued(rs) && c.name !in st.revoked
    ensures c in Issued(rs) && c.name !in st.revoked + RevokedIn(rs) ==> Brought(st, rs, c)
  {
    if i :| 0 <= i < |rs| && c in CertsOf(rs[i]) && c.name !in AcceptAll(st, rs[..i]).revoked {
      AcceptAllRevoked(st, rs[..i]);
    }
    if c in Issued(rs) && c.name !in st.revoked + RevokedIn(rs) {
      var r :| r in rs && c in CertsOf(r);
      var i :| 0 <= i < |rs| && rs[i] == r;
      AcceptAllRevoked(st, rs[..i]);
    }
  }

  /** What a list that revokes nothing issues is brought by it, whatever follows. */
  lemma BroughtBefore(st: State, front: seq<Fed>, back: seq<Fed>, i: nat, c: Cert)
    requires i < |front| && c in CertsOf(front[i]) && c.name !in st.revoked
    requires RevokedIn(front[..i]) == {}
    ensures Brought(st, front + back, c)
  {
    var all := front + back;
    assert all[i] == front[i] && all[..i] == front[..i];
    AcceptAllRevoked(st, front[..i]);
  }

  /** With all revocations last, nothing the records revoke is kept out. */
  lemma BroughtFirst(st: State, rs: seq<Fed>, c: Cert)
    requires c in Issued(rs) && c.name !in st.revoked
    ensures Brought(st, Ordered(rs, false), c)
  {
    var front := Part(rs, false);
    var r :| r in rs && c in CertsOf(r);
    var i :| 0 <= i < |front| && front[i] == r;
    assert forall x :: x in front[..i] ==> x in front;
    BroughtBefore(st, front, Part(rs, true), i, c);
  }

  /** What is brought after a list that issues nothing is not revoked in that list. */
  lemma BroughtAfter(st: State, front: seq<Fed>, back: seq<Fed>, c: Cert)
    requires Brought(st, front + back, c)
    requires forall r :: r in front ==> CertsOf(r) == []
    ensures c.name !in st.revoked + RevokedIn(front)
  {
    var all := front + back;
    var i :| 0 <= i < |all| && c in CertsOf(all[i]) && c.name !in AcceptAll(st, all[..i]).revoked;
    assert forall j :: 0 <= j < |front| ==> all[j] in front;
    AcceptAllRevoked(st, all[..i]);
    forall r | r in front ensures r in all[..i] {
      var j :| 0 <= j < |front| && front[j] == r;
      assert all[..i][j] == r;
    }
  }

  /** With all revocations first, everything the records revoke is kept out. */
  lemma BroughtLast(st: State, rs: seq<Fed>, c: Cert)
    requires Brought(st, Ordered(rs, true), c)
    ensures c.name !in st.revoked + RevokedIn(rs)
  {
    BroughtAfter(st, Part(rs, true), Part(rs, false), c);
    assert RevokedIn(Part(rs, true)) == RevokedIn(rs);
  }

  /** From what an order brings to what it verifies. */
  lemma VerifiableIff(crypto: Crypto, st: State, rs: seq<Fed>, all: seq<Fed>, excluded: set<CertName>, d: Signed)
    requires forall c :: Brought(st, all, c) <==> c in Issued(rs) && c.name !in excluded
    ensures Verifiable(crypto, AcceptAll(st, all), d) <==> Matched(crypto, st, rs, excluded, d)
  {
    forall c: Cert
      ensures c in Certs(AcceptAll(st, all), d.claimed) <==>
        c in Certs(st, d.claimed) || (c in Issued(rs) && c.name.identity == d.claimed && c.name !in excluded)
    {
      AcceptAllCerts(st, all, d.claimed, c);
    }
  }

  /** Revocations last verify the most, revocations first the least. */
  lemma VerificationExtremes(crypto: Crypto, st: State, rs: seq<Fed>, d: Signed)
    ensures Verifiable(crypto, AcceptAll(st, Ordered(rs, false)), d) <==> Matched(crypto, st, rs, st.revoked, d)
    ensures Verifiable(crypto, AcceptAll(st, Ordered(rs, true)), d)
      <==> Matched(crypto, st, rs, st.revoked + RevokedIn(rs), d)
  {
    var last, first := Ordered(rs, false), Ordered(rs, true);
    assert Issued(last) == Issued(rs) == Issued(first) && RevokedIn(first) == RevokedIn(rs);
    forall c ensures Brought(st, last, c) <==> c in Issued(rs) && c.name !in st.revoked {
      BroughtBounds(st, last, c);
      if c in Issued(rs) && c.name !in st.revoked {
        BroughtFirst(st, rs, c);
      }
    }
    forall c ensures Brought(st, first, c) <==> c in Issued(rs) && c.name !in st.revoked + RevokedIn(rs) {
      BroughtBounds(st, first, c);
      if Brought(st, first, c) {
        BroughtLast(st, rs, c);
      }
    }
    VerifiableIff(crypto, st, rs, last, st.revoked, d);
    VerifiableIff(crypto, st, rs, first, st.revoked + RevokedIn(rs), d);
  }

  /** No order verifies more than what was not revoked at first, nor less than what was never revoked. */
  lemma VerificationBounds(crypto: Crypto, st: State, rs: seq<Fed>, d: Signed)
    ensures Matched(crypto, st, rs, st.revoked + RevokedIn(rs), d) ==> Verifiable(crypto, AcceptAll(st, rs), d)
    ensures Verifiable(crypto, AcceptAll(st, rs), d) ==> Matched(crypto, st, rs, st.revoked, d)
  {
    forall c: Cert
      ensures c in Certs(AcceptAll(st, rs), d.claimed) <==>
        c in Certs(st, d.claimed) || (c.name.identity == d.claimed && Brought(st, rs, c))
    {
      AcceptAllCerts(st, rs, d.claimed, c);
    }
    forall c: Cert
      ensures Brought(st, rs, c) ==> c in Issued(rs) && c.name !in st.revoked
      ensures c in Issued(rs) && c.name !in st.revoked + RevokedIn(rs) ==> Brought(st, rs, c)
    {
      BroughtBounds(st, rs, c);
    }
  }

  /**
   All orders, and repetitions, of the same records verify a packet alike if and only if a matching
   certificate that only the records themselves revoke is not the only one there is.
   */
  lemma VerificationOrderFree(crypto: Crypto, st: State, rs: seq<Fed>, d: Signed)
    ensures (forall rs' :: SameRecords(rs, rs') ==>
              (Verifiable(crypto, AcceptAll(st, rs'), d) <==> Verifiable(crypto, AcceptAll(st, rs), d)))
      <==> (Matched(crypto, st, rs, st.revoked, d) ==> Matched(crypto, st, rs, st.revoked + RevokedIn(rs), d))
  {
    VerificationExtremes(crypto, st, rs, d);
    forall rs' | SameRecords(rs, rs')
      ensures Matched(crypto, st, rs, st.revoked + RevokedIn(rs), d) ==> Verifiable(crypto, AcceptAll(st, rs'), d)
      ensures Verifiable(crypto, AcceptAll(st, rs'), d) ==> Matched(crypto, st, rs, st.revoked, d)
    {
      assert Issued(rs') == Issued(rs) && RevokedIn(rs') == RevokedIn(rs);
      VerificationBounds(crypto, st, rs', d);
    }
    assert SameRecords(rs, Ordered(rs, false)) && SameRecords(rs, Ordered(rs, true));
  }

  lemma IssueAndRevoke(brings: Fed, revokes: Fed, cert: Cert)
    requires brings.name.rtype == Certificate && brings.items == [CertBlock(cert)]
    requires revokes.name.rtype == Revocation && revokes.items == [CertNameBlock(cert.name)]
    ensures Issued([brings, revokes]) == {cert} && RevokedIn([brings, revokes]) == {cert.name}
  {
    var rs := [brings, revokes];
    assert brings.items[..0] == [] && CertsIn([]) == [] && CertsIn(brings.items) == [cert];
    assert CertNameBlock(cert.name) in revokes.items;
    assert brings in rs && revokes in rs;
    assert cert in CertsOf(brings) && cert.name in RevokedBy(revokes);
  }

  lemma OnlyOneMatches(crypto: Crypto, st: State, rs: seq<Fed>, cert: Cert, d: Signed)
    requires Certs(st, d.claimed) == [] && st.revoked == {}
    requires Issued(rs) == {cert} && RevokedIn(rs) == {cert.name}
    requires d.claimed == cert.name.identity && crypto.signs(cert, d)
    ensures Matched(crypto, st, rs, st.revoked, d) && !Matched(crypto, st, rs, st.revoked + RevokedIn(rs), d)
  {
  }

  lemma OnlyOneRevoked(crypto: Crypto, st: State, rs: seq<Fed>, cert: Cert, d: Signed)
    requires Certs(st, d.claimed) == [] && st.revoked == {}
    requires Issued(rs) == {cert} && RevokedIn(rs) == {cert.name}
    requires d.claimed == cert.name.identity && crypto.signs(cert, d)
    ensures Verifiable(crypto, AcceptAll(st, Ordered(rs, false)), d)
    ensures !Verifiable(crypto, AcceptAll(st, Ordered(rs, true)), d)
  {
    OnlyOneMatches(crypto, st, rs, cert, d);
    VerificationExtremes(crypto, st, rs, d);
  }

  lemma OrderedPair(brings: Fed, revokes: Fed)
    requires brings.name.rtype != Revocation && revokes.name.rtype == Revocation
    ensures Ordered([brings, revokes], false) == [brings, revokes]
    ensures Ordered([brings, revokes], true) == [revokes, brings]
  {
    var rs := [brings, revokes];
    assert rs[1..] == [revokes] && [revokes][1..] == [];
    assert Part([revokes], false) == [] && Part([revokes], true) == [revokes];
    assert Part(rs, false) == [brings] && Part(rs, true) == [revokes];
  }

  /** It does depend on the order when a record revokes the only matching certificate another brings. */
  lemma VerificationDependsOnOrder(crypto: Crypto, issue: Name, revoke: Name, cert: Cert, d: Signed)
    requires issue.rtype == Certificate && revoke.rtype == Revocation
    requires d.claimed == cert.name.identity && crypto.signs(cert, d)
    ensures var st := State(map[], {});
      var brings, revokes := Fed(issue, [CertBlock(cert)]), Fed(revoke, [CertNameBlock(cert.name)]);
      && Verifiable(crypto, AcceptAll(st, [brings, revokes]), d)
      && !Verifiable(crypto, AcceptAll(st, [revokes, brings]), d)
  {
    var st := State(map[], {});
    var brings, revokes := Fed(issue, [CertBlock(cert)]), Fed(revoke, [CertNameBlock(cert.name)]);
    IssueAndRevoke(brings, revokes, cert);
    OrderedPair(brings, revokes);
    OnlyOneRevoked(crypto, st, [brings, revokes], cert, d);
  }

  // ---- Authority -----------------------------------------------------------------------------

  /** Beyond the initial ones, only certificates the anchor issued are ever held. */
  lemma {:induction false} OnlyAnchorIssues(crypto: Crypto, anchor: Cert, st: State, rs: seq<Fed>,
                                            id: Producer, c: Cert)
    requires forall r :: r in rs ==> FormatOk(crypto, anchor, r)
    requires c in Certs(AcceptAll(st, rs), id)
    ensures c in Certs(st, id) || crypto.issues(anchor, c)
  {
    AcceptAllCerts(st, rs, id, c);
    if c !in Certs(st, id) {
      var i :| 0 <= i < |rs| && c in CertsOf(rs[i]);
      assert FormatOk(crypto, anchor, rs[i]);
    }
  }

  /** A certificate is revoked only by the anchor or by its own holder. */
  lemma OnlyOwnerRevokes(crypto: Crypto, anchor: Cert, st: State, rs: seq<Fed>, n: CertName)
    requires forall r :: r in rs ==> FormatOk(crypto, anchor, r)
    requires n in AcceptAll(st, rs).revoked && n !in st.revoked
    ensures exists r ::
      r in rs && n in RevokedBy(r) && (r.name.producer == anchor.name.identity || r.name.producer == n.identity)
  {
    AcceptAllRevoked(st, rs);
    var r :| r in rs && n in RevokedBy(r);
    assert FormatOk(crypto, anchor, r);
  }
}
