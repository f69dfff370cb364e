/** Record names as paths: producer, type, identifier, timestamp and digest, numbers in decimal. */
module RecordUri {
  import opened Records
  import opened LedgerListing

  // ---- Numbers -------------------------------------------------------------------------------

  predicate IsDigit(c: char) {
    '0' <= c <= '9'
  }

  function Digit(d: nat): (c: char)
    requires d < 10
    ensures IsDigit(c)
  {
    ('0' as int + d) as char
  }

  function Decimal(n: nat): (s: string)
    ensures s != "" && forall c :: c in s ==> IsDigit(c)
  {
    if n < 10 then [Digit(n)] else Decimal(n / 10) + [Digit(n % 10)]
  }

  /** The number a text of digits stands for; other characters count as zero. */
  function Value(s: string): nat
    decreases |s|
  {
    if s == "" then 0
    else
      var c := s[|s| - 1];
      10 * Value(s[..|s| - 1]) + (if IsDigit(c) then c as int - '0' as int else 0)
  }

  lemma {:induction false} ValueDecimal(n: nat)
    ensures Value(Decimal(n)) == n
  {
    if n < 10 {
      assert Decimal(n)[..0] == "";
    } else {
      ValueDecimal(n / 10);
      var s := Decimal(n);
      assert s[..|s| - 1] == Decimal(n / 10);
    }
  }

  function SignedDecimal(x: int): (s: string)
    ensures s != "" && '/' !in s
  {
    if x < 0 then "-" + Decimal(-x) else Decimal(x)
  }

  function SignedValue(s: string): int {
    if s != "" && s[0] == '-' then 0 - Value(s[1..]) else Value(s)
  }

  lemma SignedValueDecimal(x: int)
    ensures SignedValue(SignedDecimal(x)) == x
  {
    if x < 0 {
      ValueDecimal(-x);
      assert SignedDecimal(x)[1..] == Decimal(-x);
    } else {
      ValueDecimal(x);
      assert SignedDecimal(x)[0] in Decimal(x);
    }
  }

  // ---- Names ---------------------------------------------------------------------------------

  /** The texts that peers and applications choose: producer prefixes, of any length, and identifiers. */
  datatype Texts = Texts(
    prefix: Producer -> Backend.Path,
    producer: Backend.Path -> Producer,
    identifier: nat -> Backend.Component,
    number: Backend.Component -> nat)
  {
    /** A prefix is not empty, and different producers and identifiers have different texts. */
    ghost predicate Valid() {
      && (forall q :: prefix(q) != [] && producer(prefix(q)) == q)
      && (forall i :: number(identifier(i)) == i)
    }
  }

  function TypeText(rtype: RecordType): Backend.Component {
    match rtype
    case Generic => "Generic"
    case Certificate => "Cert"
    case Revocation => "Revocation"
    case Genesis => "Genesis"
  }

  function ParseType(s: string): Option<RecordType> {
    if s == "Generic" then Some(Generic)
    else if s == "Cert" then Some(Certificate)
    else if s == "Revocation" then Some(Revocation)
    else if s == "Genesis" then Some(Genesis)
    else None
  }

  /** Prefix, type, identifier, timestamp and digest. */
  function NamePath(x: Texts, n: Name): Backend.Path {
    x.prefix(n.producer)
    + [TypeText(n.rtype), x.identifier(n.identifier), SignedDecimal(n.timestamp), Decimal(n.digest)]
  }

  /** A full record name, read from its end; what is too short or of no known type is none. */
  function ParseName(x: Texts, p: Backend.Path): Option<Name> {
    if |p| < 5 || ParseType(p[|p| - 4]).None? then None
    else
      var rtype := ParseType(p[|p| - 4]).value;
      Some(Name(x.producer(p[..|p| - 4]), rtype, x.number(p[|p| - 3]), SignedValue(p[|p| - 2]), Value(p[|p| - 1])))
  }

  /** A record name is read back from its path, whatever the prefix and the identifier look like. */
  lemma NameReadsBack(x: Texts, n: Name)
    requires x.Valid()
    ensures ParseName(x, NamePath(x, n)) == Some(n)
  {
    SignedValueDecimal(n.timestamp);
    ValueDecimal(n.digest);
    var p := NamePath(x, n);
    assert p[..|p| - 4] == x.prefix(n.producer);
    assert ParseType(TypeText(n.rtype)) == Some(n.rtype);
  }

  /** So names can be kept in an ordered store under their paths. */
  lemma NamesReadBack(x: Texts)
    requires x.Valid()
    ensures Naming(n => NamePath(x, n), p => ParseName(x, p)).Valid()
  {
    var naming := Naming(n => NamePath(x, n), p => ParseName(x, p));
    forall n ensures naming.parse(naming.path(n)) == Some(n) {
      NameReadsBack(x, n);
    }
  }

  function NumberedPrefix(q: Producer): Backend.Path {
    match q
    case GenesisPrefix => ["genesis"]
    case Peer(id) => ["peer", Decimal(id)]
  }

  /** Prefixes and identifiers with numbers in decimal, as one choice of texts. */
  function NumberedTexts(): Texts {
    Texts(NumberedPrefix, p => if |p| == 2 then Peer(Value(p[1])) else GenesisPrefix, i => Decimal(i), c => Value(c))
  }

  /** For instance, `/peer/3/Cert/5/-7/12`. */
  lemma NumberedExample()
    ensures NamePath(NumberedTexts(), Name(Peer(3), Certificate, 5, -7, 12))
      == ["peer", "3"] + ["Cert", "5", "-7", "12"]
  {
    assert Digit(1) == '1' && Digit(2) == '2' && Digit(3) == '3' && Digit(5) == '5' && Digit(7) == '7';
    assert Decimal(12) == Decimal(1) + [Digit(2)] == "12";
    assert Decimal(3) == "3" && Decimal(5) == "5" && SignedDecimal(-7) == "-" + Decimal(7) == "-7";
    assert NumberedTexts().prefix(Peer(3)) == ["peer", "3"] && NumberedTexts().identifier(5) == "5";
  }

  lemma NumberedTextsValid()
    ensures NumberedTexts().Valid()
  {
    forall q ensures NumberedTexts().prefix(q) != [] && NumberedTexts().producer(NumberedTexts().prefix(q)) == q {
      if q.Peer? {
        ValueDecimal(q.id);
      }
    }
    forall i: nat ensures NumberedTexts().number(NumberedTexts().identifier(i)) == i {
      ValueDecimal(i);
    }
  }
}
