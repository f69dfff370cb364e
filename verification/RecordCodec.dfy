/**
 The content of a record's packet as a tree of typed blocks: building, encoding, decoding, and
 splitting a certificate record's items into certificates and previous-certificate pointers.
 */
module RecordCodec {
  import opened Records

  /** A certificate's full name; `digest` is its implicit digest component, if there is one. */
  datatype CertName = CertName(identity: Producer, version: nat, digest: Option<nat>, wellFormed: bool)

  datatype Cert = Cert(name: CertName, key: nat)

  /** The name inside a key locator: empty, a proper record name, or any other name. */
  datatype Locator = NoName | RecordNamed(n: Name) | BadName(text: string)

  /**
   Blocks by their type; RawBlock stands for any type the record layer does not look into, and
   BrokenNameBlock for a name whose inside does not parse, with whatever its decoding leaves behind.
   */
  datatype Block =
    | NameBlock(n: Name)
    | BrokenNameBlock(left: Name)
    | CertNameBlock(c: CertName)
    | LocatorBlock(l: Locator)
    | CertBlock(cert: Cert)
    | HeaderBlock(header: seq<Block>)
    | BodyBlock(body: seq<Block>)
    | RawBlock(tlvType: nat, bytes: seq<nat>)

  datatype Wire = Wire(pointers: seq<Name>, items: seq<Block>)

  // ---- Encoding and decoding -----------------------------------------------------------------

  function NameBlocks(names: seq<Name>): (r: seq<Block>)
    ensures |r| == |names| && forall i :: 0 <= i < |r| ==> r[i] == NameBlock(names[i])
  {
    seq(|names|, i requires 0 <= i < |names| => NameBlock(names[i]))
  }

  /** The children of the content block an encoded record fills. */
  function Encoded(w: Wire): seq<Block> {
    [HeaderBlock(NameBlocks(w.pointers)), BodyBlock(w.items)]
  }

  /** wireEncode: the header with one name block per pointer, then the body with the items. */
  method WireEncode(w: Wire) returns (content: seq<Block>)
    ensures content == Encoded(w)
    ensures |content| == 2 && content[0].HeaderBlock? && content[1] == BodyBlock(w.items)
    ensures |content[0].header| == |w.pointers|
    ensures forall i :: 0 <= i < |w.pointers| ==> content[0].header[i] == NameBlock(w.pointers[i])
  {
    var header: seq<Block> := [];
    var i := 0;
    while i < |w.pointers|
      invariant 0 <= i <= |w.pointers| && |header| == i
      invariant forall j :: 0 <= j < i ==> header[j] == NameBlock(w.pointers[j])
    {
      header := header + [NameBlock(w.pointers[i])];
      i := i + 1;
    }
    var body: seq<Block> := [];
    i := 0;
    while i < |w.items|
      invariant 0 <= i <= |w.items| && body == w.items[..i]
    {
      body := body + [w.items[i]];
      i := i + 1;
    }
    assert header == NameBlocks(w.pointers) && body == w.items;
    content := [HeaderBlock(header), BodyBlock(body)];
  }

  predicate AllNames(blocks: seq<Block>) {
    forall b :: b in blocks ==> b.NameBlock? || b.BrokenNameBlock?
  }

  /** The pointer a header item yields; a name that does not parse is reported and used all the same. */
  predicate Yields(b: Block, n: Name) {
    (b.NameBlock? && b.n == n) || (b.BrokenNameBlock? && b.left == n)
  }

  predicate Names(header: seq<Block>, names: seq<Name>) {
    |header| == |names| && forall i :: 0 <= i < |header| ==> Yields(header[i], names[i])
  }

  /** The first header block and the first body block decide; other children are ignored. */
  ghost predicate Decodes(content: seq<Block>, w: Wire) {
    exists h, b ::
      && FirstHeader(content, h) && FirstBody(content, b)
      && Names(content[h].header, w.pointers)
      && content[b].body == w.items
  }

  predicate FirstHeader(content: seq<Block>, h: int) {
    0 <= h < |content| && content[h].HeaderBlock? && forall i :: 0 <= i < h ==> !content[i].HeaderBlock?
  }

  predicate FirstBody(content: seq<Block>, b: int) {
    0 <= b < |content| && content[b].BodyBlock? && forall i :: 0 <= i < b ==> !content[i].BodyBlock?
  }

  method HeaderWireDecode(content: seq<Block>) returns (pointers: Option<seq<Name>>)
    ensures pointers.Some? ==>
      exists h :: FirstHeader(content, h) && Names(content[h].header, pointers.value)
    ensures pointers.None? ==> forall h :: FirstHeader(content, h) ==> !AllNames(content[h].header)
  {
    var h := 0;
    while h < |content| && !content[h].HeaderBlock?
      invariant 0 <= h <= |content| && forall i :: 0 <= i < h ==> !content[i].HeaderBlock?
    {
      h := h + 1;
    }
    if h == |content| {
      return None;
    }
    assert FirstHeader(content, h);
    var header := content[h].header;
    var names: seq<Name> := [];
    var i := 0;
    while i < |header|
      invariant 0 <= i <= |header| && |names| == i
      invariant forall j :: 0 <= j < i ==> Yields(header[j], names[j])
    {
      if header[i].NameBlock? {
        names := names + [header[i].n];
      } else if header[i].BrokenNameBlock? {
        names := names + [header[i].left];
      } else {
        assert header[i] in header;
        return None;
      }
      i := i + 1;
    }
    assert Names(header, names);
    return Some(names);
  }

  method BodyWireDecode(content: seq<Block>) returns (items: Option<seq<Block>>)
    ensures items.Some? ==> exists b :: FirstBody(content, b) && content[b].body == items.value
    ensures items.None? ==> forall b :: !FirstBody(content, b)
  {
    var b := 0;
    while b < |content| && !content[b].BodyBlock?
      invariant 0 <= b <= |content| && forall i :: 0 <= i < b ==> !content[i].BodyBlock?
    {
      b := b + 1;
    }
    if b == |content| {
      return None;
    }
    assert FirstBody(content, b);
    var body: seq<Block> := [];
    var i := 0;
    while i < |content[b].body|
      invariant 0 <= i <= |content[b].body| && body == content[b].body[..i]
    {
      body := body + [content[b].body[i]];
      i := i + 1;
    }
    return Some(body);
  }

  /** Decoding a record from its content; any missing or ill-typed part makes it fail. */
  method WireDecode(content: seq<Block>) returns (w: Option<Wire>)
    ensures w.Some? ==> Decodes(content, w.value)
    ensures w.None? ==> forall v :: !Decodes(content, v)
    ensures w.Some? <==>
      exists h, b :: (FirstHeader(content, h) && FirstBody(content, b)
                      && forall x :: x in content[h].header ==> x.NameBlock? || x.BrokenNameBlock?)
    ensures w.Some? ==>
      exists h :: (FirstHeader(content, h) && |content[h].header| == |w.value.pointers|
                   && forall i :: 0 <= i < |content[h].header| ==>
                        && (content[h].header[i].NameBlock? ==> w.value.pointers[i] == content[h].header[i].n)
                        && (content[h].header[i].BrokenNameBlock? ==> w.value.pointers[i] == content[h].header[i].left))
  {
    var pointers := HeaderWireDecode(content);
    if pointers.None? {
      return None;
    }
    var items := BodyWireDecode(content);
    if items.None? {
      return None;
    }
    w := Some(Wire(pointers.value, items.value));
  }

  /** Blocks after the first header and the first body change nothing. */
  lemma DecodesFirst(content: seq<Block>, more: seq<Block>, w: Wire)
    requires Decodes(content, w)
    ensures Decodes(content + more, w)
  {
    var h, b :| FirstHeader(content, h) && FirstBody(content, b)
                && Names(content[h].header, w.pointers) && content[b].body == w.items;
    assert FirstHeader(content + more, h) && FirstBody(content + more, b);
  }

  /** A content decodes to at most one record, and an encoded record to itself. */
  lemma DecodeEncode(w: Wire, v: Wire)
    ensures Decodes(Encoded(w), v) <==> v == w
  {
    var content := Encoded(w);
    assert FirstHeader(content, 0) && FirstBody(content, 1);
    if Decodes(content, v) {
      var h, b :| FirstHeader(content, h) && FirstBody(content, b)
                  && Names(content[h].header, v.pointers) && content[b].body == v.items;
      assert h == 0 && b == 1;
      assert v.pointers == w.pointers;
    } else {
      assert Names(content[0].header, w.pointers);
    }
  }

  // ---- Certificate records -------------------------------------------------------------------

  /** What constructing a CertificateRecord accepts as an item. */
  predicate CertificateItem(b: Block) {
    b.CertBlock? || (b.LocatorBlock? && !b.l.BadName?)
  }

  function CertsIn(items: seq<Block>): seq<Cert> {
    if items == [] then []
    else if items[|items| - 1].CertBlock? then CertsIn(items[..|items| - 1]) + [items[|items| - 1].cert]
    else CertsIn(items[..|items| - 1])
  }

  function LocatorsIn(items: seq<Block>): seq<Locator> {
    if items == [] then []
    else if items[|items| - 1].LocatorBlock? then LocatorsIn(items[..|items| - 1]) + [items[|items| - 1].l]
    else LocatorsIn(items[..|items| - 1])
  }

  /** The two lists hold exactly what the certificate and locator blocks carry. */
  lemma {:induction false} SplitMembers(items: seq<Block>, c: Cert, l: Locator)
    ensures c in CertsIn(items) <==> CertBlock(c) in items
    ensures l in LocatorsIn(items) <==> LocatorBlock(l) in items
    decreases |items|
  {
    if items != [] {
      var front, last := items[..|items| - 1], items[|items| - 1];
      SplitMembers(front, c, l);
      assert items == front + [last];
    }
  }

  predicate CertificateItems(items: seq<Block>) {
    forall b :: b in items ==> CertificateItem(b)
  }

  /** A certificate record under construction; `built` means its packet exists. */
  class CertificateRecord {
    var recordPointers: seq<Name>
    var contentItems: seq<Block>
    var certList: seq<Cert>
    var prevCert: seq<Locator>
    var built: bool

    /** The lists kept beside the items say what the items contain. */
    ghost predicate Consistent()
      reads this
    {
      certList == CertsIn(contentItems) && prevCert == LocatorsIn(contentItems)
    }

    constructor ()
      ensures Consistent() && !built && recordPointers == [] && contentItems == []
    {
      recordPointers, contentItems, certList, prevCert, built := [], [], [], [], false;
    }

    /** From a decoded record: fails on an item that is neither a locator of a record nor a certificate. */
    method SplitItems(w: Wire) returns (ok: bool)
      modifies this
      ensures ok <==> CertificateItems(w.items)
      ensures ok <==> forall b :: b in w.items ==> b.CertBlock? || (b.LocatorBlock? && !b.l.BadName?)
      ensures ok ==> recordPointers == w.pointers && contentItems == w.items && Consistent()
    {
      recordPointers, contentItems, certList, prevCert := w.pointers, w.items, [], [];
      var i := 0;
      while i < |w.items|
        invariant 0 <= i <= |w.items|
        invariant recordPointers == w.pointers && contentItems == w.items
        invariant certList == CertsIn(w.items[..i]) && prevCert == LocatorsIn(w.items[..i])
        invariant CertificateItems(w.items[..i])
      {
        assert w.items[..i + 1][..i] == w.items[..i];
        var b := w.items[i];
        assert b in w.items;
        if b.LocatorBlock? {
          if b.l.BadName? {
            return false;
          }
          prevCert := prevCert + [b.l];
        } else if b.CertBlock? {
          certList := certList + [b.cert];
        } else {
          return false;
        }
        i := i + 1;
      }
      assert w.items[..i] == w.items;
      return true;
    }

    /** Refused once the record is built. */
    method AddPointer(pointer: Name) returns (ok: bool)
      modifies this`recordPointers
      ensures ok <==> !built
      ensures recordPointers == if ok then old(recordPointers) + [pointer] else old(recordPointers)
    {
      if built {
        return false;
      }
      recordPointers := recordPointers + [pointer];
      return true;
    }

    method AddRecordItem(item: Block) returns (ok: bool)
      modifies this`contentItems
      ensures ok <==> !built
      ensures contentItems == if ok then old(contentItems) + [item] else old(contentItems)
    {
      if built {
        return false;
      }
      contentItems := contentItems + [item];
      return true;
    }

    /** Refused once built, but the list beside the items has grown by then. */
    method AddCertificateItem(cert: Cert) returns (ok: bool)
      requires Consistent()
      modifies this`contentItems, this`certList
      ensures ok <==> !built
      ensures certList == old(certList) + [cert]
      ensures contentItems == if ok then old(contentItems) + [CertBlock(cert)] else old(contentItems)
      ensures ok ==> Consistent()
    {
      certList := certList + [cert];
      ok := AddRecordItem(CertBlock(cert));
      assert ok ==> contentItems[..|contentItems| - 1] == old(contentItems);
    }

    method AddPrevCertPointer(name: Locator) returns (ok: bool)
      requires Consistent()
      modifies this`contentItems, this`prevCert
      ensures ok <==> !built
      ensures prevCert == old(prevCert) + [name]
      ensures contentItems == if ok then old(contentItems) + [LocatorBlock(name)] else old(contentItems)
      ensures ok ==> Consistent()
    {
      prevCert := prevCert + [name];
      ok := AddRecordItem(LocatorBlock(name));
      assert ok ==> contentItems[..|contentItems| - 1] == old(contentItems);
    }
  }

  /** One call made while a certificate record is put together. */
  datatype Addition = AddCert(cert: Cert) | AddPrev(l: Locator)

  function ItemsOf(adds: seq<Addition>): (r: seq<Block>)
    ensures |r| == |adds|
    ensures forall i :: 0 <= i < |r| ==>
      r[i] == if adds[i].AddCert? then CertBlock(adds[i].cert) else LocatorBlock(adds[i].l)
  {
    seq(|adds|, i requires 0 <= i < |adds| =>
      if adds[i].AddCert? then CertBlock(adds[i].cert) else LocatorBlock(adds[i].l))
  }

  function CertsAdded(adds: seq<Addition>): seq<Cert> {
    if adds == [] then []
    else CertsAdded(adds[..|adds| - 1]) + if adds[|adds| - 1].AddCert? then [adds[|adds| - 1].cert] else []
  }

  function PrevsAdded(adds: seq<Addition>): seq<Locator> {
    if adds == [] then []
    else PrevsAdded(adds[..|adds| - 1]) + if adds[|adds| - 1].AddPrev? then [adds[|adds| - 1].l] else []
  }

  lemma {:induction false} ItemsSplit(adds: seq<Addition>)
    ensures CertsIn(ItemsOf(adds)) == CertsAdded(adds) && LocatorsIn(ItemsOf(adds)) == PrevsAdded(adds)
  {
    if adds != [] {
      ItemsSplit(adds[..|adds| - 1]);
      assert ItemsOf(adds)[..|adds| - 1] == ItemsOf(adds[..|adds| - 1]);
    }
  }

  /**
   Whatever the interleaving of certificates and previous-certificate pointers, the packet of the
   record decodes to the same pointers and items; as a certificate record it is accepted exactly
   when no pointer added was a bad name, and then yields both lists in the order of addition.
   */
  lemma CertificateRecordRoundTrip(pointers: seq<Name>, adds: seq<Addition>, w: Wire)
    requires Decodes(Encoded(Wire(pointers, ItemsOf(adds))), w)
    ensures w.pointers == pointers
    ensures CertificateItems(w.items) <==> forall a :: a in adds && a.AddPrev? ==> !a.l.BadName?
    ensures CertsIn(w.items) == CertsAdded(adds) && LocatorsIn(w.items) == PrevsAdded(adds)
  {
    DecodeEncode(Wire(pointers, ItemsOf(adds)), w);
    ItemsSplit(adds);
    forall a | a in adds && a.AddPrev? ensures LocatorBlock(a.l) in w.items {
      var i :| 0 <= i < |adds| && adds[i] == a;
      assert w.items[i] == LocatorBlock(a.l);
    }
  }
}
