# DLedger in Dafny

A model of the DLedger peer and proofs about it. A peer keeps recent records in a *tail*, each with
the set of producers that endorsed it, and confirmed records in a *backend*. Adding a record
endorses everything the record leads to; records that reach `confirmWeight` endorsers are confirmed,
heavier ones leave the tail, and records that stay unconfirmed too long are evicted together with
everything that points to them.

How the files fit together:

- `Records.dfy`, `Dag.dfy`: names, records, configuration; reachability along pointers as the
  existence of a walk.
- `LedgerState.dfy`: the state of a peer and what each step does to it, stated by reachability and
  set comprehension: which records gain an endorser, which are confirmed, which go.
- `LedgerInvariant.dfy`, `LedgerTheorems.dfy`, `LedgerQueue.dfy`, `CertFrontier.dfy`: what every step
  keeps, and what follows for every run.
- `LedgerEndorsers.dfy`: who endorses a record while nothing is evicted, and what that confirms.
- `LedgerTiming.dfy`, `LedgerReports.dfy`: what the clock does to the tail, and what the application is told.
- `LedgerSteps.dfy`, `LedgerSearch.dfy`, `LedgerConfirm.dfy`, `LedgerSweep.dfy`, `LedgerWaiting.dfy`,
  `LedgerListing.dfy`: what the engine's loops keep, one file per stage.
- `LedgerImpl.dfy`: the engine as a class with the source's fields and loops. Its ghost field `run`
  lists the states it went through, and every operation is proved to extend that run by steps of
  `LedgerState.dfy`, so the theorems about runs hold of the object.
- `Network.dfy`: several peers, honest ones running the ledger, faulty ones publishing anything under
  their own prefixes, packets delivered in any order, repeatedly or never.
- `CertManager.dfy`, `CertAgreement.dfy`, `RecordCodec.dfy`, `Backend.dfy`: the certificate manager,
  what it makes of a confirmed ledger, the record encoding, and the ordered store; `RecordUri.dfy`:
  record names as paths in that store.
- `EvictionExample.dfy`: a concrete run of the ledger after which the announced records do not cover the tail.

History components of a state (`log`, `known`, `verified`, `rank`, `births`) exist for the statements
only: the calls of onRecordConfirmed with the endorsers counted then, the packets obtained, the names
verified at some time, and the order of insertions.

## Results

- Persistence against faulty peers: whenever an honest peer has confirmed a record, at least
  `confirmWeight` peers other than its producer, less at most the number of faulty ones, verified the
  record and every ancestor of it, with identical content, and keep having done so. Two honest peers
  that confirmed a record confirmed the same history below it.
- The confirmed ledger is append-only and ancestor-closed after every step, and every record in it was
  confirmed exactly once, in the very call that brought its weight to `confirmWeight`.
- The depth-first search that stops at own and already endorsed records finds exactly what plain
  reachability around the producer's own records finds, and always finds the records it dereferences.
- Endorser sets are sound (a witness record per endorser) and complete (every verified descendant's
  producer is counted), and exact while nothing is evicted; weight never increases towards
  descendants; eviction never takes a confirmed record and is the least closed set; the tail is convex
  and acyclic.
- While nothing is evicted, what is confirmed and what is still in the tail depend on the verified
  records alone and not on their order: peers with the same weights and the same verified records have
  the same confirmed ledger and the same verified tail.
- After every addition no unconfirmed tail record is past the confirmation timeout, and none is evicted
  unless something it leads to is. A lookup finds exactly what the peer says it has, as it was published.
- The names fetched for a record are what it waits for: with them and with what was there it is ready,
  and each of them alone keeps it waiting while unseen.
- The announced records cover the verified tail exactly when every endorsed record kept a verified
  child, which holds in every run without eviction and fails in a concrete run with one.
- No waiting record is ever ready between operations, and none is lost: it waits on, is added, or had
  waited beyond the timeout.
- Endorsement decisions of the certificate manager depend only on the collection of records it was
  fed; two peers with the same confirmed certificate and revocation records agree. The manager
  refuses a packet exactly when every matching certificate it was given or a confirmed record issues is
  revoked; while that lasts no call endorses the record or makes it verified. Data verification does
  depend on the order; `VerificationOrderFree` says exactly when it does not.
- The prefix scan of the backend is complete exactly when no stored key extends the prefix's text by a
  byte below the slash beside a proper extension of the prefix (as `/peer-2/x` does beside `/peer/y`),
  and so is the ledger's own list of confirmed records.

Where the code and the design document differ, the model follows the code: a predecessor whose weight equals
`contributionWeight` is accepted (the text asks for a lower weight), confirmation fires at equality
with `confirmWeight` only (`ConfirmedAtWeight` shows that no record skips it), and unconfirmed records
expire only when a further record is added.

`confirmWeight` and `precedingRecordNum` are taken to be at least one. The code does not check this;
`ZeroWeightConfirmsNothing` states what a zero `confirmWeight` leads to.

## Model

| member | source | states |
|---|---|---|
| Network.Persistence | src/ledger-impl.cpp:106-148 | Whenever an honest peer has confirmed a record, at least confirmWeight peers other than the producer, less at most the faulty ones, have each verified it and all its ancestors with the same content |
| Network.EndorserHolds | src/ledger-impl.cpp:585-599 | In every run of the group, each endorser an honest peer counts for a tail record is a faulty peer or verified the record and all its ancestors itself |
| Network.HoldsForever | src/ledger-impl.cpp:529-617 | A peer that verified a record with all its ancestors has done so in every later state |
| Network.ConfirmedHistoryAgrees | src/ledger-impl.cpp:602-653 | When two honest peers both confirmed a record, every ancestor of it is confirmed at both, with equal content |
| Network.EndorsersAgree | src/ledger-impl.cpp:585-599 | While no honest peer evicts anything, two of them that verified the same records count the same endorsers for every record in both tails, in whatever order the records arrived |
| Network.LedgersAgree | src/ledger-impl.cpp:553-646 | While no honest peer evicts anything, two of them with the same weights that verified the same records have the same confirmed records and the same verified tail with the same endorsers, in whatever order the records arrived |
| LedgerInvariant.RunKeeps | src/ledger-impl.cpp:553-646 | Every state of every run satisfies the whole invariant of tail, backend, waiting records and history |
| LedgerInvariant.AddedKeeps | src/ledger-impl.cpp:553-646 | Adding a record keeps the whole invariant, whatever is endorsed, confirmed, pruned and evicted |
| LedgerInvariant.EnabledAddable | src/ledger-impl.cpp:529-549 | Start-up, creation and resolving a waiting record all meet the conditions addToTailingRecord relies on: unseen, interlocked, predecessors held |
| LedgerInvariant.WeightDescendsFar | src/ledger-impl.cpp:585-599 | A tail record is at least as heavy as every tail record that leads to it |
| LedgerInvariant.EvictedUnconfirmed | src/ledger-impl.cpp:677-704 | The sweep over descendants of expired records never takes a record that reached confirmWeight |
| LedgerTheorems.ConfirmedAncestors | src/ledger-impl.cpp:602-618 | After every step all pointers, and all known ancestors, of a confirmed record are confirmed |
| LedgerTheorems.LedgerAppendOnly | src/ledger-impl.cpp:648-653 | Along every run nothing confirmed is dropped or changed and confirmations are only appended |
| LedgerTheorems.ConfirmedOnce | src/ledger-impl.cpp:602-618 | The confirmed records are exactly those a confirmation was fired for, one each, with confirmWeight endorsers other than the producer |
| LedgerTheorems.ConfirmedAtWeight | src/ledger-impl.cpp:605-614 | A tail record becomes confirmed in a call if and only if the call gives it its confirmWeight-th endorser |
| LedgerTheorems.ConfirmedWereVerified | src/ledger-impl.cpp:609-641 | Every record about to be confirmed is flagged verified already, so the flag-update loop never has work |
| LedgerTheorems.ZeroWeightConfirmsNothing | src/ledger-impl.cpp:607-617 | With a confirmWeight of zero the backend stays empty in every run |
| LedgerTheorems.Departures | src/ledger-impl.cpp:602-645 | A record that leaves the tail is either confirmed and at least as heavy as the removal weight, or unconfirmed and a descendant of an expired unconfirmed record |
| LedgerTheorems.EvictedLeast | src/ledger-impl.cpp:689-703 | Eviction is contained in every set that holds the expired unconfirmed records and whatever points into it |
| LedgerTheorems.EvictionComplete | src/ledger-impl.cpp:677-704 | After eviction nothing expired is left unconfirmed and no tail record points to an evicted one |
| LedgerTiming.NoneOverdue | src/ledger-impl.cpp:677-704 | In every run, after each addition no tail record of fewer than confirmWeight endorsers was added before the clock less the confirmation timeout |
| LedgerTiming.KeptUnlessOverdue | src/ledger-impl.cpp:677-704 | An addition drops no record for which everything it leads to in the tail was added within the confirmation timeout or has confirmWeight endorsers: it stays in the tail or is confirmed |
| LedgerTiming.TimesKept | src/ledger-impl.cpp:574-575 | An added record counts from the time of its addition and every survivor from the time it always did |
| LedgerTheorems.TailConvex | src/ledger-impl.cpp:574-617 | Whatever lies on a chain of pointers between two tail records is in the tail |
| LedgerTheorems.TailAcyclic | src/ledger-impl.cpp:574-575 | No tail record leads back to a record that points to it, by insertion order and without hashing |
| LedgerTheorems.LookupsSucceed | src/ledger-impl.cpp:186-202 | The two verification flags agree in every state, and the lookup of every verified tail record and of its tail predecessors succeeds |
| LedgerTheorems.LookupFinds | src/ledger-impl.cpp:186-202 | In every state of every run a lookup finds something exactly when the peer says it has the record, that is when it is verified in the tail or confirmed, and finds the packet as obtained |
| LedgerTheorems.EndorsementComplete | src/ledger-impl.cpp:585-599 | If a verified tail record leads to a tail record, its producer wrote that record or is among its endorsers |
| LedgerTheorems.EndorsementSound | src/ledger-impl.cpp:591-599 | An endorser is not the producer and wrote a record verified here that leads to the endorsed record |
| LedgerEndorsers.EndorsersExact | src/ledger-impl.cpp:553-646 | In every run without eviction a producer endorses a tail record if and only if it is not its producer and wrote a verified record that leads to it |
| LedgerEndorsers.ConfirmedExact | src/ledger-impl.cpp:602-618 | In every run without eviction a verified record is confirmed if and only if at least confirmWeight producers other than its own wrote verified records that lead to it, and in the tail if and only if fewer than the removal weight did |
| LedgerTheorems.WeightGrowsByOne | src/ledger-impl.cpp:591-599 | One addition changes a surviving record's endorsers by at most the added record's producer, not counted before |
| LedgerTheorems.PruningIsExact | src/ledger-impl.cpp:577-600 | Stopping the search at endorsed records loses nothing: afterwards the producer endorses exactly what it did before and what is reachable around its own records |
| LedgerTheorems.WeightBounded | src/ledger-impl.cpp:603-617 | Between calls every tail record is lighter than the larger of contributionWeight + 1 and confirmWeight |
| LedgerTheorems.ContributionIsPresence | src/ledger-impl.cpp:338-354 | With confirmWeight at most contributionWeight + 1 the contribution policy accepts a record exactly when all its predecessors are in the tail |
| LedgerTheorems.ConfirmedVisible | src/ledger-impl.cpp:165-184 | Every confirmed record is found by hasRecord, whatever the tail holds |
| LedgerTheorems.CoveredIffSupported | src/ledger-impl.cpp:239-242 | The announced records lead to every verified tail record if and only if each endorsed record has a verified child in the tail |
| LedgerTheorems.SyncCovers | src/ledger-impl.cpp:239-242 | In every run without eviction the announced records lead to every verified tail record |
| EvictionExample.EvictionUncovers | src/ledger-impl.cpp:677-704 | A start-up and two fetched records, each handled as the ledger handles it and with the waiting list in order in between, lead to an eviction after which the announced records do not cover the tail |
| CertFrontier.CertificatesReachable | src/ledger-impl.cpp:655-666 | The list of latest certificate records names confirmed certificate records only, and every confirmed one is reachable from it along previous-certificate pointers |
| CertFrontier.FrontierFinds | src/ledger-impl.cpp:655-666 | The same for any order of confirmations none of which names itself as previous |
| CertFrontier.LatestExact | src/ledger-impl.cpp:655-666 | In every run the list holds exactly the confirmed certificate records that no certificate record confirmed since, and not they themselves, names as previous |
| LedgerReports.ToldEveryConfirmation | src/ledger-impl.cpp:648-675 | The application is told of every confirmed record once, in the order of confirmation |
| LedgerEngine.LedgerImpl.MarkAncestors | src/ledger-impl.cpp:577-600 | The stack search terminates and adds the producer to exactly the endorser sets of the records reachable through unmarked foreign tail records |
| LedgerEngine.LedgerImpl.CheckParents | src/ledger-impl.cpp:561-571 | A record is flagged verified exactly when endorsed with no unverified predecessor in the tail |
| LedgerEngine.LedgerImpl.OnRecordConfirmed | src/ledger-impl.cpp:648-675 | Puts the record into the store, which holds exactly the confirmed records afterwards; a certificate record enters the list of latest ones and those it names leave it; a certificate or revocation record goes to the certificate manager, and every record to the application after that |
| LedgerEngine.LedgerImpl.SeenRecord | src/ledger-impl.cpp:204-213 | Whether the name is in the tail or stored as confirmed |
| LedgerEngine.LedgerImpl.HasRecord | src/ledger-impl.cpp:165-176 | Whether the name is verified in the tail or, if not in the tail, stored as confirmed |
| LedgerEngine.LedgerImpl.GetRecord | src/ledger-impl.cpp:186-202 | The record flagged verified in the tail, or the stored one when the name is not in the tail, and nothing else; it is found exactly when hasRecord answers true, with the content it was obtained with |
| LedgerEngine.LedgerImpl.ConfirmRecords | src/ledger-impl.cpp:602-618 | Confirms each updated record of weight confirmWeight once, removes those of removal weight or more, and reports whether a flag changed |
| LedgerEngine.LedgerImpl.RemoveTimeoutRecords | src/ledger-impl.cpp:677-704 | The rounds terminate and leave exactly the tail records that lead to no record of fewer than confirmWeight endorsers added before the clock less the confirmation timeout |
| LedgerEngine.LedgerImpl.AddToTailingRecord | src/ledger-impl.cpp:553-646 | A record in the tail changes nothing; any other addition is one step of the ledger's run |
| LedgerEngine.LedgerImpl.CheckPointerCount | src/record.cpp:151-164 | Accepts exactly the expected number of pointers without repetition |
| LedgerEngine.LedgerImpl.CheckSyntaxValidity | src/ledger-impl.cpp:263-318 | Accepts exactly records with the right pointers, a timestamp not too far ahead, interlock, and positive answers of the certificate manager and application |
| LedgerEngine.LedgerImpl.CheckEndorseValidity | src/ledger-impl.cpp:320-361 | Accepts exactly records meeting the contribution policy, with positive answers of the certificate manager and application |
| LedgerEngine.LedgerImpl.CheckRecordAncestor | src/ledger-impl.cpp:529-551 | Adds a waiting record if and only if all its predecessors are held and its previous certificates seen, endorsing it exactly on positive answers of certificate manager and application and the contribution policy |
| LedgerEngine.LedgerImpl.TryWaiting | src/ledger-impl.cpp:515-525 | A waiting record leaves the list exactly when it is ready or has waited beyond the timeout |
| LedgerEngine.LedgerImpl.DrainStack | src/ledger-impl.cpp:511-526 | Terminates by nothing but additions that heed the endorsement answers and erasures, with no waiting record ready and none that had waited beyond the timeout at the start; every record that waited still waits, was inserted during the call, or had waited beyond the timeout |
| LedgerWaiting.AnsweredVerifies | src/ledger-impl.cpp:529-549 | A record that becomes verified while waiting records are resolved was waiting, has positive answers of certificate manager and application, and points to tail records of at most contributionWeight endorsers only |
| LedgerWaiting.AnsweredSuffices | src/ledger-impl.cpp:529-549 | A record inserted while waiting records are resolved was waiting, and becomes verified whenever those answers are positive and its predecessors light enough |
| LedgerEngine.LedgerImpl.OnFetchedRecord | src/ledger-impl.cpp:450-527 | A fetched record is taken exactly when unseen, not waiting and syntactically valid; the names fetched are all it lacks besides verification, and each of them keeps it waiting while unseen; afterwards no waiting record is ready, and the fetched record and every one that waited still waits, was inserted during the call, or had waited beyond the timeout |
| LedgerEngine.LedgerImpl.CreateRecord | src/ledger-impl.cpp:88-155 | Exactly when a record is created and which code is returned, notEnoughTailingRecord exactly when fewer than precedingRecordNum verified foreign tail records have at most appendWeight endorsers; every pointer of a created record is such a record; it carries the application's items, and all latest certificate records if it is one; it is one creation step, passes the syntax check at every clock reading not too far behind its timestamp and the contribution policy on the tail before the call, and leaves no waiting record ready |
| LedgerEngine.LedgerImpl.BuildRecord | src/ledger-impl.cpp:99-128 | Fails exactly when there are too few records to point to, and otherwise builds the named record of the given items with precedingRecordNum distinct pointers to such records |
| LedgerSteps.OwnPointers | src/ledger-impl.cpp:124-128 | A record that already carries pointers when it is created ends up with the expected number of distinct ones if and only if it came with fewer than that, all distinct, and none of them is chosen again |
| LedgerSteps.ReusedRefused | src/ledger-impl.cpp:124-144 | A record whose creation failed after pointers were added, created again, fails the syntax check at every time |
| LedgerEngine.LedgerImpl.Candidates | src/ledger-impl.cpp:106-113 | Lists exactly the verified foreign tail records of at most appendWeight endorsers, each once |
| LedgerEngine.LedgerImpl.PreviousCertificates | src/ledger-impl.cpp:99-104 | A certificate record names every latest certificate record after what the application put in; other records get nothing added |
| LedgerEngine.LedgerImpl.MissingAncestors | src/ledger-impl.cpp:476-499 | Fetches unseen names only, the unseen previous certificate records of a certificate record among them; with all of them usable, and what was there still there, the record is ready, and without any one of them it is not |
| LedgerWaiting.MissingAwaited | src/ledger-impl.cpp:476-499 | The unseen pointers and previous certificate records are together enough for the record to be ready and each of them necessary |
| LedgerEngine.LedgerImpl.SendSyncInterest | src/ledger-impl.cpp:227-261 | Announces the latest certificate records and exactly the verified unendorsed tail records |
| LedgerEngine.LedgerImpl.ListRecord | src/ledger-impl.cpp:178-184 | Lists in key order confirmed records under the prefix that hasRecord finds, and all of them if and only if the ledger's store is not obstructed for the prefix |
| RecordUri.NameReadsBack | src/record_name.cpp:11-54 | A record name written as prefix, type, identifier, timestamp and digest is read back from the end of its path, for any non-empty prefixes and any identifiers that differ as their texts do |
| LedgerEngine.LedgerImpl.InitLedger | src/ledger-impl.cpp:33-81 | Refuses inconsistent weights only, and otherwise starts with one step per genesis record, in order, and nothing waiting |
| LedgerQueue.CreateQuiescent | src/ledger-impl.cpp:147-148 | Adding a record that nothing waits for makes no waiting record ready |
| LedgerQueue.WaitingLacks | src/ledger-impl.cpp:529-549 | A record still waiting points to one that is unverified in the tail or not there at all, or is a certificate record with an unseen previous one |
| LedgerQueue.StepGains | src/ledger-impl.cpp:553-646 | An addition makes no record but the added one seen or usable as a predecessor |
| CertManager.EndorsementByCollection | src/default-cert-manager.cpp:83-136 | A packet is endorsed if and only if a certificate, initial or brought by any accepted record, and revoked by none of them, matches it |
| CertManager.EndorsementConverges | src/default-cert-manager.cpp:83-136 | Managers that start alike make the same endorsement decisions after any two orders or repetitions of the same accepted records |
| CertManager.AcceptAllCerts | src/default-cert-manager.cpp:110-119 | A certificate is held exactly when initial or brought by some record before anything accepted earlier revoked it |
| CertManager.AcceptTakes | src/default-cert-manager.cpp:110-136 | Accepting a record takes over every unrevoked certificate, or every name, the record holds, and nothing else |
| CertManager.RevocationRefuses | src/default-cert-manager.cpp:83-94 | Once a revocation record naming all certificates that match a packet is accepted, the packet is refused whatever is accepted later |
| CertManager.VerificationStable | src/default-cert-manager.cpp:25-35 | What can be endorsed can be verified, and what can be verified stays so |
| CertManager.VerificationDependsOnOrder | src/default-cert-manager.cpp:25-35 | Two orders of one issuance and one revocation that verification, unlike endorsement, tells apart |
| CertManager.VerificationOrderFree | src/default-cert-manager.cpp:25-35 | All orders and repetitions of given records verify a packet alike if and only if a matching certificate, initial or issued and not revoked at the start, implies one that is initial or issued and that none of the records revokes either |
| CertManager.VerificationExtremes | src/default-cert-manager.cpp:110-136 | With all revocations last, every issued certificate not revoked at the start counts; with all revocations first, only those that no record revokes |
| CertManager.OnlyAnchorIssues | src/default-cert-manager.cpp:39-51 | After format-checked records only initial certificates and those the anchor issued are held |
| CertManager.OnlyOwnerRevokes | src/default-cert-manager.cpp:56-71 | A revocation accepted with the format check comes from the anchor or the certificate's holder |
| CertManager.DefaultCertificateManager.EndorseSignature | src/default-cert-manager.cpp:83-94 | Answers whether an unrevoked held certificate of the claimed producer matches |
| CertManager.DefaultCertificateManager.VerifySignature | src/default-cert-manager.cpp:25-35 | Answers whether any held certificate of the claimed producer matches |
| CertManager.DefaultCertificateManager.AcceptRecord | src/default-cert-manager.cpp:110-136 | Afterwards a name is revoked exactly when it was or a revocation record of nothing but names holds it, and a certificate is held exactly when it was or a well-formed certificate record holds it unrevoked; anything else changes nothing |
| CertManager.DefaultCertificateManager.VerifyRecordFormat | src/default-cert-manager.cpp:37-81 | Accepts exactly the anchor's certificate records of certificates it issued and well-formed locators, and the revocations of well-formed names by the anchor or the certificate's holder; records of other types pass |
| CertManager.DefaultCertificateManager.AuthorizedToGenerate | src/default-cert-manager.cpp:146-150 | Answers whether a certificate of the peer itself is held |
| CertManager.DefaultCertificateManager.Open | src/default-cert-manager.cpp:11-23 | Refuses an invalid trust anchor, and otherwise starts with its certificate and the starting peers', filed by identity, and nothing revoked |
| CertAgreement.PeersAgree | src/ledger-impl.cpp:668-670 | Two ledgers that confirmed the same certificate and revocation records: managers that started alike and were handed what each ledger reported endorse the same packets |
| CertAgreement.FedIffConfirmed | src/ledger-impl.cpp:656-670 | The certificate manager was handed exactly the confirmed certificate and revocation records |
| CertAgreement.RefusedIffRevoked | src/default-cert-manager.cpp:83-136 | In each state of a run the certificate manager refuses a packet if and only if every matching certificate of the claimed producer, initial or issued by a confirmed record, is revoked, initially or by a confirmed record |
| CertAgreement.RevokedNotEndorsable | src/default-cert-manager.cpp:83-94 | If every matching certificate of the claimed producer that the peer starts with, or that a record confirmed by a later state issues, is revoked by a record confirmed in an earlier one, the certificate manager endorses the packet in no state from the earlier to the later |
| CertAgreement.RevokedNotAdmitted | src/ledger-impl.cpp:450-551 | When a fetched record is handled, with the certificate manager asked at any moment of the call, no record is agreed to or becomes verified if all its matching certificates, among those obtained by the end of the call, were revoked before the call |
| CertAgreement.RevokedForever | src/ledger-impl.cpp:320-361 | Over any number of calls that create or fetch records, another peer's record does not become verified if all its matching certificates, among those obtained by the last call, were revoked before the first |
| RecordCodec.WireEncode | src/record.cpp:75-138 | Builds a header of one name block per pointer and a body of the items |
| RecordCodec.WireDecode | src/record.cpp:106-149 | Decodes the first header and body, failing exactly when one is missing or the header holds anything but names; a name that does not parse still yields a pointer |
| RecordCodec.DecodesFirst | src/record.cpp:106-149 | Blocks appended to a packet that decodes change nothing |
| RecordCodec.DecodeEncode | src/record.cpp:94-149 | An encoded record decodes to itself and to nothing else |
| RecordCodec.CertificateRecordRoundTrip | src/record.cpp:176-213 | For any interleaving of additions, the decoded record is accepted as a certificate record exactly when no added pointer is a bad name, and yields both lists in order |
| RecordCodec.CertificateRecord.SplitItems | src/record.cpp:176-194 | Accepts exactly certificates and well-named locators, and splits them into the two lists |
| RecordCodec.CertificateRecord.AddPointer | src/record.cpp:66-73 | Appends a pointer, refused once the record is built |
| RecordCodec.CertificateRecord.AddRecordItem | src/record.cpp:45-52 | Appends an item, refused once the record is built |
| RecordCodec.CertificateRecord.AddCertificateItem | src/record.cpp:196-201 | Appends to both the list and the items; once built only the list grows |
| RecordCodec.CertificateRecord.AddPrevCertPointer | src/record.cpp:209-213 | Appends to both the list and the items; once built only the list grows |
| Backend.Backend.ListRecord | src/backend.cpp:67-78 | Lists in key order only stored names under the prefix, and all of them if and only if no obstructing key is stored beside a proper extension of the prefix |
| Backend.Backend.GetRecord | src/backend.cpp:25-40 | Finds a value exactly when the name is stored |
| Backend.Backend.PutRecord | src/backend.cpp:41-53 | Replaces or adds one entry, keeps all others and the key order |
| Backend.Backend.DeleteRecord | src/backend.cpp:55-65 | Removes exactly the entry of the name |
| Backend.SkippedObstructed | src/backend.cpp:71-73 | A name under the prefix that the scan does not reach is preceded by a key extending the prefix's text by a byte below the slash |
| Backend.SiblingsObstruct | src/backend.cpp:67-78 | Two stored names are enough to obstruct a prefix: one whose first component extends the prefix by a byte below the slash, and one under the prefix |
| Backend.PeersObstruct | src/backend.cpp:67-78 | With `/peer-2/x` and `/peer/y` stored, the prefix `/peer` is obstructed, so the listing misses a name |

## Left out

- LedgerEngine.LedgerImpl.ConfirmRecords: visits the updated records in any order, of which the source's name order is one.
- LedgerEngine.LedgerImpl.CreateRecord: takes the full name of the signed packet as given and unused; the shuffle is covered by listing candidates in any order; records come without pointers of their own; `LedgerSteps.OwnPointers` and `LedgerSteps.ReusedRefused` say what the source makes of others.
- LedgerEngine.LedgerImpl.OnFetchedRecord: packets that do not decode, and the sending of the Interests for missing ancestors, are not modelled; the missing names are the result.
- LedgerEngine.LedgerImpl.OnRecordConfirmed: a certificate record that does not parse is not modelled; the application's callback is taken to be set and not to call back into the ledger.
- LedgerEngine.LedgerImpl.InitLedger: starts with an empty backend and requires positive confirmWeight and precedingRecordNum; weights are unbounded integers, so the conversion of the removal weight to a 32-bit int is not modelled.
- Backend.Backend.ListRecord: component texts are taken as already escaped; database errors are not modelled.
- LedgerEngine.LedgerImpl.ListRecord: the path of a name is any function that can be read back; `RecordUri.dfy` gives one for any prefixes and identifiers, with timestamps and digests in decimal.
- CertManager.DefaultCertificateManager.AcceptRecord: signature checks are arbitrary functions; revoked names that no certificate can carry are not kept, as no check can tell.
- A full name contains the packet's digest, so a peer never obtains two different packets under one full name, and nothing mentions a name before its packet is made; hashing itself is not modelled.
- Creating records of type BASE_RECORD or GENESIS_RECORD through the application interface: their names do not carry the peer's own prefix or do not parse.
- The clock never runs backwards between two readings.
- One peer's prefix never extends another's, so prefix tests on producers are equality tests; src/record_name.cpp appears as the fields of a name.
- Handling of sync and record Interests (src/ledger-impl.cpp:363-448) beyond what is announced: it only decides what to fetch or to send.
- TLV bytes, names and certificates of ndn-cxx, key chains, faces, scheduling, logging and the LevelDB files.
- Liveness: nothing is said about records being confirmed or delivered eventually.
- The older ledger in app/peer.cpp and the function runner in dfi-app.
