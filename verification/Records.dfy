/** Names, records and configuration shared by every part of the model. */
module Records {

  datatype Option<+T> = None | Some(value: T)

  /** The record types a well-formed record name can carry. */
  datatype RecordType = Generic | Certificate | Revocation | Genesis

  /** The producer prefix of a record name: the fixed genesis prefix or one peer's prefix. */
  datatype Producer = GenesisPrefix | Peer(id: nat)

  /** The full name of a record. Producer and type are read off the name itself. */
  datatype Name = Name(producer: Producer, rtype: RecordType, identifier: nat, timestamp: int, digest: nat)

  /** `prevCerts` is meaningful for certificate records only; `None` stands for an empty name. */
  datatype Record = Record(name: Name, pointers: seq<Name>, prevCerts: seq<Option<Name>>)

  datatype Config = Config(
    self: Producer,
    precedingRecordNum: nat,
    appendWeight: nat,
    contributionWeight: nat,
    confirmWeight: nat,
    numGenesisBlock: nat,
    ancestorFetchTimeout: nat,
    clockSkewTolerance: nat,
    confirmationTimeout: nat)
  {
    /** The weight at which a record leaves the tail: too heavy to be appended to, and confirmed. */
    function RemoveWeight(): (w: nat)
      ensures w > contributionWeight && w >= confirmWeight
      ensures w == contributionWeight + 1 || w == confirmWeight
    {
      if contributionWeight + 1 > confirmWeight then contributionWeight + 1 else confirmWeight
    }

    /** Confirmation needs at least one endorser; creation appends to admissible records only. */
    predicate Valid() {
      confirmWeight >= 1 && precedingRecordNum >= 1 && appendWeight <= contributionWeight
    }
  }
}
