/** The ordered store as the home of the confirmed records. */
module LedgerListing {
  import opened Records
  import Backend

  /** How names are written as paths, and read back. */
  datatype Naming = Naming(path: Name -> Backend.Path, parse: Backend.Path -> Option<Name>) {
    ghost predicate Valid() {
      forall n :: parse(path(n)) == Some(n)
    }
  }

  /** The store holds exactly the confirmed records, under the paths of their names. */
  ghost predicate Mirrors(entries: seq<Backend.Entry<Record>>, backend: map<Name, Record>, naming: Naming) {
    forall e :: e in entries <==> exists n :: n in backend && e == Backend.Entry(naming.path(n), backend[n])
  }

  /** Storing a confirmed record keeps the store in step. */
  lemma MirrorsPut(entries: seq<Backend.Entry<Record>>, backend: map<Name, Record>, naming: Naming, r: Record,
                   entries': seq<Backend.Entry<Record>>)
    requires naming.Valid() && Mirrors(entries, backend, naming)
    requires forall e :: e in entries' <==>
      e == Backend.Entry(naming.path(r.name), r) || (e in entries && e.name != naming.path(r.name))
    ensures Mirrors(entries', backend[r.name := r], naming)
  {
  }

  /** Looking a name up in the store is looking it up among the confirmed records. */
  lemma MirroredLookup(entries: seq<Backend.Entry<Record>>, backend: map<Name, Record>, naming: Naming, n: Name,
                       found: Option<Record>)
    requires naming.Valid() && Mirrors(entries, backend, naming)
    requires found.None? <==> !Backend.Stored(entries, naming.path(n))
    requires found.Some? ==> Backend.Entry(naming.path(n), found.value) in entries
    ensures found == if n in backend then Some(backend[n]) else None
  {
    if n in backend {
      MirroredStored(entries, backend, naming, n);
    }
  }

  lemma MirroredName(entries: seq<Backend.Entry<Record>>, backend: map<Name, Record>, naming: Naming,
                     p: Backend.Path) returns (n: Name)
    requires naming.Valid() && Mirrors(entries, backend, naming) && Backend.Stored(entries, p)
    ensures n in backend && naming.path(n) == p && naming.parse(p) == Some(n)
  {
    var i :| 0 <= i < |entries| && entries[i].name == p;
    assert entries[i] in entries;
    n :| n in backend && entries[i] == Backend.Entry(naming.path(n), backend[n]);
  }

  lemma MirroredStored(entries: seq<Backend.Entry<Record>>, backend: map<Name, Record>, naming: Naming, n: Name)
    requires Mirrors(entries, backend, naming) && n in backend
    ensures Backend.Stored(entries, naming.path(n))
  {
    var e := Backend.Entry(naming.path(n), backend[n]);
    assert e in entries;
  }

  /** The list of names misses a confirmed record exactly when the list of paths misses its path. */
  lemma ListedAll(entries: seq<Backend.Entry<Record>>, backend: map<Name, Record>, naming: Naming,
                  prefix: Backend.Path, listed: seq<Backend.Path>, names: seq<Name>)
    requires naming.Valid() && Mirrors(entries, backend, naming) && |names| == |listed|
    requires forall j :: 0 <= j < |names| ==> naming.path(names[j]) == listed[j]
    ensures (forall n :: n in backend && prefix <= naming.path(n) ==> n in names)
      <==> (forall p :: Backend.Stored(entries, p) && prefix <= p ==> p in listed)
  {
    forall n ensures n in names <==> naming.path(n) in listed {
      if j :| 0 <= j < |listed| && listed[j] == naming.path(n) {
        assert naming.parse(naming.path(names[j])) == Some(names[j]) == Some(n);
      }
      if j :| 0 <= j < |names| && names[j] == n {
        assert listed[j] == naming.path(n);
      }
    }
    if forall n :: n in backend && prefix <= naming.path(n) ==> n in names {
      forall p | Backend.Stored(entries, p) && prefix <= p ensures p in listed {
        var n := MirroredName(entries, backend, naming, p);
      }
    }
    if forall p :: Backend.Stored(entries, p) && prefix <= p ==> p in listed {
      forall n | n in backend && prefix <= naming.path(n) ensures n in names {
        MirroredStored(entries, backend, naming, n);
      }
    }
  }
}
