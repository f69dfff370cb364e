/**
 The state of one peer's ledger and what each of its operations does to that state, stated
 declaratively (by reachability and set comprehension). The loops that compute these results are
 in LedgerImpl.dfy.
 */
module LedgerState {
  import opened Records
  import opened Dag

  datatype TailState = TailState(
    parentOk: bool,           // parentEndorseVerified
    refSet: set<Producer>,
    recordOk: bool,           // recordEndorseVerified
    record: Record,
    addedTime: int)

  type Tail = map<Name, TailState>

  datatype Waiting = Waiting(record: Record, since: int)

  /** One call of onRecordConfirmed, with the endorsers counted at that moment. */
  datatype Confirmation = Confirmation(record: Record, endorsers: set<Producer>)

  /**
   The first five components are the source's fields plus its clock. The others are history:
   every confirmation so far, every packet obtained, the names verified at some time, and the
   order of insertions.
   */
  datatype Node = Node(
    tail: Tail,
    backend: map<Name, Record>,
    stack: seq<Waiting>,
    lastCerts: seq<Name>,
    clock: int,
    log: seq<Confirmation>,
    known: Graph,
    verified: set<Name>,
    rank: map<Name, nat>,
    births: nat)

  const EMPTY_NODE: Node := Node(map[], map[], [], [], 0, [], map[], {}, map[], 0)

  // ---- Lookups -----------------------------------------------------------------------------

  /** seenRecord: whether a record is in the tail or confirmed. */
  predicate Seen(t: Tail, backend: map<Name, Record>, n: Name) {
    n in t || n in backend
  }

  /** hasRecord: as before, but not while the record is unverified in the tail. */
  predicate Has(t: Tail, backend: map<Name, Record>, n: Name) {
    if n in t then t[n].parentOk else n in backend
  }

  /** getRecord. */
  function Lookup(t: Tail, backend: map<Name, Record>, n: Name): Option<Record> {
    if n in t then
      if t[n].parentOk then Some(t[n].record) else None
    else if n in backend then Some(backend[n])
    else None
  }

  function Held(t: Tail): Graph {
    map n | n in t :: t[n].record
  }

  // ---- Inserting a record and propagating its producer ---------------------------------------

  predicate ParentsVerified(t: Tail, r: Record) {
    forall p :: p in r.pointers && p in t ==> t[p].parentOk
  }

  function Insert(t: Tail, r: Record, endorsed: bool, now: int): Tail {
    t[r.name := TailState(endorsed && ParentsVerified(t, r), {}, endorsed, r, now)]
  }

  /** The part of the tail the root's producer neither wrote nor endorsed yet, and the root. */
  function Unmarked(t: Tail, root: Name): Graph {
    map n | n in t && (n == root || (n.producer != root.producer && root.producer !in t[n].refSet))
      :: t[n].record
  }

  /** The part of the tail the root's producer did not write, and the root. */
  function Foreign(t: Tail, root: Name): Graph {
    map n | n in t && (n == root || n.producer != root.producer) :: t[n].record
  }

  /** The records that gain the root's producer as an endorser. */
  ghost function Marks(t: Tail, root: Name): set<Name> {
    set n | n in t && n != root && Reaches(Unmarked(t, root), root, n)
  }

  function Mark(t: Tail, marks: set<Name>, q: Producer): Tail {
    map n | n in t :: if n in marks then t[n].(refSet := t[n].refSet + {q}) else t[n]
  }

  // ---- Confirming and removing deep records --------------------------------------------------

  function Confirmed(cfg: Config, t: Tail, marks: set<Name>): set<Name> {
    set n | n in marks && n in t && |t[n].refSet| == cfg.confirmWeight
  }

  function Deep(cfg: Config, t: Tail, marks: set<Name>): set<Name> {
    set n | n in marks && n in t && |t[n].refSet| >= cfg.RemoveWeight()
  }

  function Prune(cfg: Config, t: Tail, marks: set<Name>): Tail {
    map n | n in t && n !in Deep(cfg, t, marks)
      :: if n in Confirmed(cfg, t, marks) then t[n].(parentOk := true) else t[n]
  }

  function Store(backend: map<Name, Record>, t: Tail, fired: set<Name>): map<Name, Record> {
    backend + map n | n in fired && n in t :: t[n].record
  }

  /** The confirmations list the confirmed records, each exactly once, in some order. */
  ghost predicate Fires(log: seq<Confirmation>, t: Tail, fired: set<Name>) {
    && (forall i :: 0 <= i < |log| ==>
          && log[i].record.name in fired && log[i].record.name in t
          && log[i] == Confirmation(t[log[i].record.name].record, t[log[i].record.name].refSet))
    && (forall i, j :: 0 <= i < j < |log| ==> log[i].record.name != log[j].record.name)
    && (forall n :: n in fired ==> exists i :: 0 <= i < |log| && log[i].record.name == n)
  }

  /** The list of certificate-record names with every occurrence of one name removed. */
  function Without(names: seq<Name>, n: Name): seq<Name> {
    if names == [] then []
    else if names[0] == n then Without(names[1..], n)
    else [names[0]] + Without(names[1..], n)
  }

  function WithoutAll(names: seq<Name>, gone: seq<Option<Name>>): seq<Name>
    decreases |gone|
  {
    if gone == [] then names
    else
      var rest := if gone[0].Some? then Without(names, gone[0].value) else names;
      WithoutAll(rest, gone[1..])
  }

  /** What one confirmation does to the list of latest certificate records. */
  function Supersede(lastCerts: seq<Name>, r: Record): seq<Name> {
    if r.name.rtype == Certificate then WithoutAll(lastCerts + [r.name], r.prevCerts) else lastCerts
  }

  function Frontier(lastCerts: seq<Name>, log: seq<Confirmation>): seq<Name>
    decreases |log|
  {
    if log == [] then lastCerts
    else Supersede(Frontier(lastCerts, log[..|log| - 1]), log[|log| - 1].record)
  }

  // ---- Telling others about confirmations ----------------------------------------------------

  /** A call out of the ledger on behalf of a confirmed record. */
  datatype Report = ToManager(r: Record) | ToApplication(r: Record)

  /** The records the certificate manager is told about. */
  predicate Managed(n: Name) {
    n.rtype == Certificate || n.rtype == Revocation
  }

  /** The calls one confirmation leads to. */
  function Reports(r: Record): seq<Report> {
    (if Managed(r.name) then [ToManager(r)] else []) + [ToApplication(r)]
  }

  function Reported(log: seq<Confirmation>): seq<Report>
    decreases |log|
  {
    if log == [] then [] else Reported(log[..|log| - 1]) + Reports(log[|log| - 1].record)
  }

  // ---- Evicting expired records --------------------------------------------------------------

  function Expired(cfg: Config, t: Tail, now: int): set<Name> {
    set n | n in t && |t[n].refSet| < cfg.confirmWeight && t[n].addedTime < now - cfg.confirmationTimeout
  }

  /** Everything in the tail from which a given set of records can be reached. */
  ghost function Descendants(t: Tail, roots: set<Name>): set<Name> {
    set n | n in t && exists x :: x in roots && Reaches(Held(t), n, x)
  }

  ghost function Evicted(cfg: Config, t: Tail, now: int): set<Name> {
    Descendants(t, Expired(cfg, t, now))
  }

  // ---- addToTailingRecord --------------------------------------------------------------------

  /** The records that gain an endorser when r is added at time `at`. */
  ghost function NewMarks(s: Node, r: Record, endorsed: bool, at: int): set<Name> {
    if endorsed then Marks(Insert(s.tail, r, endorsed, at), r.name) else {}
  }

  /** The tail once r is inserted and its producer propagated. */
  ghost function MarkedTail(s: Node, r: Record, endorsed: bool, at: int): Tail {
    Mark(Insert(s.tail, r, endorsed, at), NewMarks(s, r, endorsed, at), r.name.producer)
  }

  /** What confirming does to backend, log and latest certificates. */
  ghost predicate Confirms(cfg: Config, s: Node, marked: Tail, marks: set<Name>, s': Node) {
    && s'.backend == Store(s.backend, marked, Confirmed(cfg, marked, marks))
    && s.log <= s'.log
    && Fires(s'.log[|s.log|..], marked, Confirmed(cfg, marked, marks))
    && s'.lastCerts == Frontier(s.lastCerts, s'.log[|s.log|..])
  }

  /** What pruning and eviction leave of the tail. */
  ghost function Remaining(cfg: Config, marked: Tail, marks: set<Name>, now: int): Tail {
    var pruned := Prune(cfg, marked, marks);
    pruned - Evicted(cfg, pruned, now)
  }

  /** Tail and backend after adding r at time `at`, finishing at time `now`. */
  ghost function TailAfter(cfg: Config, s: Node, r: Record, endorsed: bool, at: int, now: int): Tail {
    Remaining(cfg, MarkedTail(s, r, endorsed, at), NewMarks(s, r, endorsed, at), now)
  }

  ghost function BackendAfter(cfg: Config, s: Node, r: Record, endorsed: bool, at: int): map<Name, Record> {
    var marked := MarkedTail(s, r, endorsed, at);
    Store(s.backend, marked, Confirmed(cfg, marked, NewMarks(s, r, endorsed, at)))
  }

  /** What the other components become when r is added. */
  ghost predicate Recorded(s: Node, r: Record, endorsed: bool, s': Node) {
    && s'.stack == s.stack
    && s'.known == s.known[r.name := r]
    && s'.verified == (if endorsed && ParentsVerified(s.tail, r) then s.verified + {r.name} else s.verified)
    && s'.rank == s.rank[r.name := s.births]
    && s'.births == s.births + 1
  }

  /** The whole effect of adding an unseen record at time `at`, finishing at `s'.clock`. */
  ghost predicate Added(cfg: Config, s: Node, r: Record, endorsed: bool, at: int, s': Node) {
    && s.clock <= at <= s'.clock
    && s'.tail == TailAfter(cfg, s, r, endorsed, at, s'.clock)
    && Confirms(cfg, s, MarkedTail(s, r, endorsed, at), NewMarks(s, r, endorsed, at), s')
    && Recorded(s, r, endorsed, s')
  }

  // ---- Admission checks ----------------------------------------------------------------------

  /** The interlock rule. */
  predicate Interlock(r: Record) {
    forall p :: p in r.pointers ==> p.producer != r.name.producer
  }

  predicate Distinct<T(==)>(xs: seq<T>) {
    forall i, j :: 0 <= i < j < |xs| ==> xs[i] != xs[j]
  }

  /** The part of the syntax check that the ledger decides by itself. */
  predicate SyntaxOk(cfg: Config, r: Record, now: int) {
    && |r.pointers| == cfg.precedingRecordNum
    && Distinct(r.pointers)
    && r.name.timestamp <= now + cfg.clockSkewTolerance
    && Interlock(r)
  }

  /** The contribution policy: every predecessor is in the tail and not yet too heavy. */
  predicate ContributionOk(cfg: Config, t: Tail, r: Record) {
    forall p :: p in r.pointers ==> p in t && |t[p].refSet| <= cfg.contributionWeight
  }

  predicate CertsSeen(s: Node, r: Record) {
    r.name.rtype == Certificate ==> forall c :: c in r.prevCerts && c.Some? ==> Seen(s.tail, s.backend, c.value)
  }

  /** checkRecordAncestor adds a waiting record exactly when this holds. */
  predicate Ready(s: Node, r: Record) {
    && (forall p :: p in r.pointers ==> Has(s.tail, s.backend, p))
    && CertsSeen(s, r)
  }

  /** The records createRecord may point to. */
  predicate Appendable(cfg: Config, t: Tail, p: Name) {
    && p in t
    && |t[p].refSet| <= cfg.appendWeight
    && p.producer != cfg.self
    && t[p].parentOk
  }

  // ---- Steps ---------------------------------------------------------------------------------

  datatype Event =
    | Boot(r: Record, at: int)
    | Create(r: Record, at: int)
    | Receive(r: Record, at: int)
    | Resolve(r: Record, endorsed: bool, at: int)
    | Forget(i: nat)

  /** A full name identifies one packet. */
  predicate Genuine(s: Node, r: Record) {
    r.name in s.known ==> s.known[r.name] == r
  }

  predicate SelfFree(r: Record) {
    r.name.rtype == Certificate ==> Some(r.name) !in r.prevCerts
  }

  ghost predicate Waits(s: Node, r: Record) {
    exists i :: 0 <= i < |s.stack| && s.stack[i].record == r
  }

  predicate Adds(e: Event) {
    e.Boot? || e.Create? || e.Resolve?
  }

  predicate Endorses(e: Event) {
    e.Resolve? ==> e.endorsed
  }

  /** What the source checks, or obtains from the signer, before it carries an event out. */
  ghost predicate Enabled(cfg: Config, s: Node, e: Event) {
    match e
    case Boot(r, at) =>
      && r.name.rtype == Genesis && r.name.producer == GenesisPrefix
      && r.pointers == [] && !Seen(s.tail, s.backend, r.name) && Genuine(s, r)
    case Create(r, at) =>
      && r.name.rtype != Genesis && r.name.producer == cfg.self
      && !Seen(s.tail, s.backend, r.name) && r.name !in s.known && SelfFree(r)
      && |r.pointers| == cfg.precedingRecordNum && Distinct(r.pointers)
      && (forall p :: p in r.pointers ==> Appendable(cfg, s.tail, p))
    case Receive(r, at) =>
      && r.name.rtype != Genesis && !Seen(s.tail, s.backend, r.name) && Genuine(s, r)
      && SyntaxOk(cfg, r, at)
    case Resolve(r, endorsed, at) =>
      && Waits(s, r) && !Seen(s.tail, s.backend, r.name)
      && Ready(s, r)
      && (endorsed ==> ContributionOk(cfg, s.tail, r))
    case Forget(i) =>
      i < |s.stack|
  }

  ghost predicate Step(cfg: Config, s: Node, e: Event, s': Node) {
    && Enabled(cfg, s, e)
    && match e
       case Receive(r, at) =>
         && s.clock <= at <= s'.clock
         && s' == s.(stack := s.stack + [Waiting(r, at)], known := s.known[r.name := r], clock := s'.clock)
       case Forget(i) =>
         && s.clock <= s'.clock
         && s' == s.(stack := s.stack[..i] + s.stack[i + 1..], clock := s'.clock)
       case _ =>
         Added(cfg, s, e.r, Endorses(e), e.at, s')
  }

  /** A run of one peer from the empty ledger. */
  ghost predicate Run(cfg: Config, states: seq<Node>) {
    && |states| > 0
    && states[0] == EMPTY_NODE
    && forall i :: 0 < i < |states| ==> Next(cfg, states[i - 1], states[i])
  }

  ghost predicate Next(cfg: Config, s: Node, s': Node) {
    exists e :: Step(cfg, s, e, s')
  }

  /** A run together with the events that brought about its states, from the second on. */
  ghost predicate RunBy(cfg: Config, states: seq<Node>, events: seq<Event>) {
    && Run(cfg, states) && |events| == |states|
    && forall i :: 0 < i < |states| ==> Step(cfg, states[i - 1], events[i], states[i])
  }
}
