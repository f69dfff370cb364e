/**
 The persistent store: entries ordered by the bytes of their names' URIs, and the prefix scan that
 stands in for a filter by name prefix.
 */
module Backend {
  import opened Records

  /** A name component as its URI text; a slash in it would be escaped. */
  type Component = s: string | s != "" && '/' !in s witness "a"

  type Path = seq<Component>

  function Text(n: Path): string {
    if n == [] then "" else "/" + n[0] + Text(n[1..])
  }

  /** toUri: the components, each after a slash; the empty name is a single slash. */
  function Uri(n: Path): string {
    if n == [] then "/" else Text(n)
  }

  /** Bytewise order of keys. */
  predicate Less(a: string, b: string) {
    b != "" && (a == "" || a[0] < b[0] || (a[0] == b[0] && Less(a[1..], b[1..])))
  }

  datatype Entry<V> = Entry(name: Path, value: V)

  ghost predicate Sorted<V>(entries: seq<Entry<V>>) {
    forall i, j :: 0 <= i < j < |entries| ==> Less(Uri(entries[i].name), Uri(entries[j].name))
  }

  ghost predicate Stored<V>(entries: seq<Entry<V>>, n: Path) {
    exists i :: 0 <= i < |entries| && entries[i].name == n
  }

  /** A key that extends the prefix's text, not under the prefix, by a byte below the slash. */
  predicate Obstructs(p: Path, b: Path) {
    !(p <= b) && Uri(p) <= Uri(b) && |Uri(b)| > |Uri(p)| && Uri(b)[|Uri(p)|] < '/'
  }

  /** An obstructing key is stored, and so is a proper extension of the prefix. */
  ghost predicate Obstructed<V>(entries: seq<Entry<V>>, p: Path) {
    && (exists b :: Stored(entries, b) && Obstructs(p, b))
    && (exists d :: Stored(entries, d) && p < d)
  }

  // ---- The order of keys ---------------------------------------------------------------------

  lemma {:induction false} LessTransitive(a: string, b: string, c: string)
    requires Less(a, b) && Less(b, c)
    ensures Less(a, c)
  {
    if a != "" && a[0] == b[0] && b[0] == c[0] {
      LessTransitive(a[1..], b[1..], c[1..]);
    }
  }

  lemma {:induction false} LessTotal(a: string, b: string)
    ensures a == b || Less(a, b) || Less(b, a)
    ensures !Less(a, a) && !(Less(a, b) && Less(b, a))
  {
    if a != "" && b != "" {
      LessTotal(a[1..], b[1..]);
      LessTotal(a[1..], a[1..]);
      if a[0] == b[0] && a[1..] == b[1..] {
        assert a == [a[0]] + a[1..] && b == [b[0]] + b[1..];
      }
    } else if a != "" {
      LessTotal(a[1..], a[1..]);
    }
  }

  /** No string precedes one of its prefixes. */
  lemma {:induction false} PrefixFirst(a: string, b: string)
    requires a <= b
    ensures !Less(b, a)
  {
    if a != "" {
      assert a[1..] <= b[1..];
      PrefixFirst(a[1..], b[1..]);
    }
  }

  /** What lies between a prefix and one of its extensions extends the prefix, by no greater a byte. */
  lemma {:induction false} BetweenExtends(p: string, b: string, u: string)
    requires p <= u && !Less(b, p) && Less(b, u)
    ensures p <= b && |u| > |p|
    ensures |b| > |p| ==> b[|p|] <= u[|p|]
  {
    if p != "" {
      assert b != "" && p[0] == u[0] && p[1..] <= u[1..];
      assert b[0] == p[0];
      BetweenExtends(p[1..], b[1..], u[1..]);
      assert b == [b[0]] + b[1..] && p == [p[0]] + p[1..];
    }
  }

  /** A string that extends a prefix by a smaller byte comes first. */
  lemma {:induction false} SmallerByteFirst(p: string, b: string, u: string)
    requires p <= b && p <= u && |b| > |p| && |u| > |p| && b[|p|] < u[|p|]
    ensures Less(p, b) && Less(b, u)
  {
    if p != "" {
      assert p[1..] <= b[1..] && p[1..] <= u[1..];
      SmallerByteFirst(p[1..], b[1..], u[1..]);
    }
  }

  // ---- Names and their texts -----------------------------------------------------------------

  lemma {:induction false} TextAppend(a: Path, b: Path)
    ensures Text(a + b) == Text(a) + Text(b)
  {
    if a == [] {
      assert a + b == b;
    } else {
      TextAppend(a[1..], b);
      assert (a + b)[1..] == a[1..] + b;
    }
  }

  /** How far it is to the first slash or the end. */
  function Head(s: string): (n: nat)
    ensures n <= |s|
    ensures n < |s| ==> s[n] == '/'
  {
    if s == "" || s[0] == '/' then 0 else 1 + Head(s[1..])
  }

  lemma {:induction false} HeadIsComponent(x: string, s: string)
    requires '/' !in x && (s == "" || s[0] == '/')
    ensures Head(x + s) == |x|
  {
    if x == "" {
      assert x + s == s;
    } else {
      assert x[0] in x;
      assert (x + s)[1..] == x[1..] + s;
      HeadIsComponent(x[1..], s);
    }
  }

  lemma {:induction false} HeadOfPrefix(a: string, b: string)
    requires a <= b && Head(a) < |a|
    ensures Head(b) == Head(a)
  {
    if a[0] != '/' {
      assert a[1..] <= b[1..];
      HeadOfPrefix(a[1..], b[1..]);
    }
  }

  /** Equal leading components are recognised by the slash or the end that follows them. */
  lemma SameComponent(x: Component, s: string, y: Component, t: string)
    requires s == "" || s[0] == '/'
    requires t == "" || t[0] == '/'
    requires x + s == y + t || x + s + "/" <= y + t
    ensures x == y
  {
    HeadIsComponent(x, s);
    HeadIsComponent(y, t);
    HeadIsComponent(x, s + "/");
    assert x + (s + "/") == x + s + "/";
    if x + s + "/" <= y + t {
      HeadOfPrefix(x + s + "/", y + t);
      assert x == (x + s + "/")[..|x|] == (y + t)[..|x|];
    } else {
      assert x == (x + s)[..|x|];
    }
    assert y == (y + t)[..|y|];
  }

  /** Removing equal leading components leaves the remainders in the same relation. */
  lemma StripComponent(x: Component, s: string, y: Component, t: string)
    requires s == "" || s[0] == '/'
    requires t == "" || t[0] == '/'
    requires x + s == y + t || x + s + "/" <= y + t
    ensures x == y && (s == t || s + "/" <= t)
  {
    SameComponent(x, s, y, t);
    assert s == (x + s)[|x|..] && t == (y + t)[|y|..] && s + "/" == (x + s + "/")[|x|..];
  }

  lemma StripSlash(x: string, s: string, y: string, t: string)
    requires "/" + x + s == "/" + y + t || "/" + x + s + "/" <= "/" + y + t
    ensures x + s == y + t || x + s + "/" <= y + t
  {
    assert x + s == ("/" + x + s)[1..] && y + t == ("/" + y + t)[1..];
    assert x + s + "/" == ("/" + x + s + "/")[1..];
  }

  lemma TextBoundary(n: Path)
    ensures Text(n) == "" || Text(n)[0] == '/'
  {
  }

  lemma TextStep(p: Path, b: Path)
    requires p != [] && b != [] && (Text(p) == Text(b) || Text(p) + "/" <= Text(b))
    ensures p[0] == b[0]
    ensures Text(p[1..]) == Text(b[1..]) || Text(p[1..]) + "/" <= Text(b[1..])
  {
    TextBoundary(p[1..]);
    TextBoundary(b[1..]);
    StripSlash(p[0], Text(p[1..]), b[0], Text(b[1..]));
    StripComponent(p[0], Text(p[1..]), b[0], Text(b[1..]));
  }

  /** A text that equals or extends p's text at a component boundary belongs to a name under p. */
  lemma {:induction false} TextParse(p: Path, b: Path)
    requires Text(p) == Text(b) || Text(p) + "/" <= Text(b)
    ensures p <= b
  {
    if p != [] {
      TextStep(p, b);
      TextParse(p[1..], b[1..]);
    }
  }

  lemma UriInjective(a: Path, b: Path)
    requires Uri(a) == Uri(b)
    ensures a == b
  {
    assert (a != [] ==> |Text(a)| >= 2) && (b != [] ==> |Text(b)| >= 2);
    if a != [] && b != [] {
      TextParse(a, b);
      TextParse(b, a);
    }
  }

  /** Names under a prefix carry its text, followed by a slash unless they are the prefix itself. */
  lemma UnderPrefix(p: Path, n: Path)
    requires p <= n
    ensures Uri(p) <= Uri(n)
    ensures p != [] && p != n ==> |Uri(n)| > |Uri(p)| && Uri(n)[|Uri(p)|] == '/'
  {
    var rest := n[|p|..];
    assert n == p + rest;
    TextAppend(p, rest);
    if p == [] && n != [] {
      assert Text(n)[0] == '/';
    }
  }

  // ---- The scan ------------------------------------------------------------------------------

  /** A stored name under p that comes after a stored name not under p, both from p's text on. */
  lemma SkippedObstructed<V>(entries: seq<Entry<V>>, p: Path, j: nat, k: nat)
    requires Sorted(entries) && j < k < |entries|
    requires !Less(Uri(entries[j].name), Uri(p)) && !(p <= entries[j].name) && p <= entries[k].name
    ensures Obstructed(entries, p)
  {
    var b, u := entries[j].name, entries[k].name;
    UnderPrefix(p, u);
    BetweenExtends(Uri(p), Uri(b), Uri(u));
    if Uri(b) == Uri(p) {
      UriInjective(b, p);
    }
    assert |Uri(b)| > |Uri(p)|;
    if u == p {
      LessTotal(Uri(b), Uri(p));
    }
    if Uri(b)[|Uri(p)|] == '/' {
      assert Uri(b)[..|Uri(p)|] == Uri(p) && Uri(b)[..|Uri(p)| + 1] == Text(p) + "/";
      TextParse(p, b);
    }
    assert Obstructs(p, b) && Stored(entries, b) && Stored(entries, u);
  }

  /** An obstructing key sorts between the prefix and every proper extension of it. */
  lemma ObstructionBetween(p: Path, b: Path, d: Path)
    requires Obstructs(p, b) && p < d
    ensures Less(Uri(p), Uri(b)) && Less(Uri(b), Uri(d))
  {
    UnderPrefix(p, d);
    SmallerByteFirst(Uri(p), Uri(b), Uri(d));
  }

  lemma TextOfTwo(c: Component, x: Component)
    ensures Uri([c, x]) == "/" + c + "/" + x && Uri([c]) == "/" + c
  {
    assert [c, x][1..] == [x] && [x][1..] == [] && [c][1..] == [];
    assert Text([x]) == "/" + x;
    assert Text([c, x]) == "/" + c + Text([x]);
    assert "/" + c + ("/" + x) == "/" + c + "/" + x;
  }

  lemma SiblingObstructs(c: Component, w: string, longer: Component, x: Component, y: Component)
    requires w != "" && w[0] < '/' && longer == c + w
    ensures Obstructs([c], [longer, x]) && Less(Uri([longer, x]), Uri([c, y])) && [c] < [c, y]
  {
    var p, b, u := Uri([c]), Uri([longer, x]), Uri([c, y]);
    TextOfTwo(c, y);
    TextOfTwo(longer, x);
    assert b == p + (w + "/" + x) && u == p + ("/" + y);
    assert b[|p|] == w[0] && u[|p|] == '/';
    SmallerByteFirst(p, b, u);
    assert |longer| > |c|;
    assert [longer, x][0] != c;
  }

  /**
   Obstruction is no corner case: two stored names are enough, if the first component of one extends
   that of the other by a byte below the slash, as `peer-2` extends `peer`.
   */
  lemma SiblingsObstruct<V>(c: Component, w: string, x: Component, y: Component, v: V, v': V)
    requires w != "" && w[0] < '/' && '/' !in w
    ensures var longer: Component := c + w;
      var entries := [Entry([longer, x], v), Entry([c, y], v')];
      Sorted(entries) && Obstructed(entries, [c])
  {
    var longer: Component := c + w;
    var entries := [Entry([longer, x], v), Entry([c, y], v')];
    SiblingObstructs(c, w, longer, x, y);
    assert Stored(entries, entries[0].name) && Obstructs([c], entries[0].name);
    assert Stored(entries, entries[1].name) && [c] < entries[1].name;
  }

  lemma PeersObstruct()
    ensures Sorted([Entry(["peer-2", "x"], 0), Entry(["peer", "y"], 0)])
    ensures Obstructed([Entry(["peer-2", "x"], 0), Entry(["peer", "y"], 0)], ["peer"])
  {
    assert "peer" + "-2" == "peer-2";
    SiblingsObstruct("peer", "-2", "x", "y", 0, 0);
  }

  class Backend<V> {
    var entries: seq<Entry<V>>

    ghost predicate Valid()
      reads this
    {
      Sorted(entries)
    }

    constructor ()
      ensures Valid() && entries == []
    {
      entries := [];
    }

    /** The first position whose key does not precede the given one. */
    method Seek(key: string) returns (i: nat)
      requires Valid()
      ensures i <= |entries|
      ensures forall j :: 0 <= j < i ==> Less(Uri(entries[j].name), key)
      ensures forall j :: i <= j < |entries| ==> !Less(Uri(entries[j].name), key)
    {
      i := 0;
      while i < |entries| && Less(Uri(entries[i].name), key)
        invariant 0 <= i <= |entries|
        invariant forall j :: 0 <= j < i ==> Less(Uri(entries[j].name), key)
      {
        i := i + 1;
      }
      forall j | i <= j < |entries| ensures !Less(Uri(entries[j].name), key) {
        if i < j && Less(Uri(entries[j].name), key) {
          LessTransitive(Uri(entries[i].name), Uri(entries[j].name), key);
        }
      }
    }

    method GetRecord(n: Path) returns (r: Option<V>)
      requires Valid()
      ensures r.None? <==> !Stored(entries, n)
      ensures r.Some? ==> Entry(n, r.value) in entries
    {
      var i := Seek(Uri(n));
      if i < |entries| && Uri(entries[i].name) == Uri(n) {
        UriInjective(entries[i].name, n);
        return Some(entries[i].value);
      }
      KeyNotStored(entries, n, i);
      return None;
    }

    /** Stores a value under a name, replacing the one stored before. */
    method PutRecord(n: Path, v: V)
      requires Valid()
      modifies this
      ensures Valid()
      ensures forall e :: e in entries <==> e == Entry(n, v) || (e in old(entries) && e.name != n)
    {
      var i := Seek(Uri(n));
      var k := if i < |entries| && Uri(entries[i].name) == Uri(n) then i + 1 else i;
      RangeAround(entries, n, i, k);
      PutSorted(entries, n, v, i, k);
      entries := entries[..i] + [Entry(n, v)] + entries[k..];
    }

    method DeleteRecord(n: Path)
      requires Valid()
      modifies this
      ensures Valid()
      ensures forall e :: e in entries <==> e in old(entries) && e.name != n
    {
      var i := Seek(Uri(n));
      var k := if i < |entries| && Uri(entries[i].name) == Uri(n) then i + 1 else i;
      RangeAround(entries, n, i, k);
      entries := entries[..i] + entries[k..];
    }

    /**
     Scans from the prefix's text on while the names stay under the prefix. The result is in key
     order and holds only stored names under the prefix; it holds all of them exactly when no
     obstructing key is stored beside a proper extension of the prefix.
     */
    method ListRecord(p: Path) returns (names: seq<Path>)
      requires Valid()
      ensures forall n :: n in names ==> p <= n && Stored(entries, n)
      ensures forall i, j :: 0 <= i < j < |names| ==> Less(Uri(names[i]), Uri(names[j]))
      ensures (forall n :: Stored(entries, n) && p <= n ==> n in names) <==> !Obstructed(entries, p)
    {
      names := [];
      var start := Seek(Uri(p));
      var i := start;
      while i < |entries| && p <= entries[i].name
        invariant start <= i <= |entries| && |names| == i - start
        invariant forall j :: 0 <= j < |names| ==> names[j] == entries[start + j].name && p <= names[j]
      {
        names := names + [entries[i].name];
        i := i + 1;
      }
      ScanExact(entries, p, names, start, i);
    }
  }

  lemma KeyNotStored<V>(entries: seq<Entry<V>>, n: Path, i: nat)
    requires Sorted(entries) && i <= |entries|
    requires forall j :: 0 <= j < i ==> Less(Uri(entries[j].name), Uri(n))
    requires i < |entries| ==> Uri(entries[i].name) != Uri(n) && !Less(Uri(entries[i].name), Uri(n))
    ensures !Stored(entries, n)
  {
    LessTotal(Uri(n), Uri(n));
    forall j | i <= j < |entries| ensures entries[j].name != n {
      if i < j {
        LessTotal(Uri(entries[i].name), Uri(n));
        LessTotal(Uri(entries[i].name), Uri(entries[j].name));
      }
    }
  }

  /** Everything before i precedes n's key and everything from k on follows it. */
  lemma RangeAround<V>(entries: seq<Entry<V>>, n: Path, i: nat, k: nat)
    requires Sorted(entries) && i <= |entries|
    requires forall j :: 0 <= j < i ==> Less(Uri(entries[j].name), Uri(n))
    requires forall j :: i <= j < |entries| ==> !Less(Uri(entries[j].name), Uri(n))
    requires k == if i < |entries| && Uri(entries[i].name) == Uri(n) then i + 1 else i
    ensures i <= k <= |entries|
    ensures forall j :: i <= j < k ==> entries[j].name == n
    ensures forall j :: 0 <= j < i ==> entries[j].name != n
    ensures forall j :: k <= j < |entries| ==> Less(Uri(n), Uri(entries[j].name)) && entries[j].name != n
  {
    LessTotal(Uri(n), Uri(n));
    if k == i + 1 {
      UriInjective(entries[i].name, n);
    }
    forall j | k <= j < |entries| ensures Less(Uri(n), Uri(entries[j].name)) && entries[j].name != n {
      FollowsKey(entries, n, i, j);
    }
  }

  lemma FollowsKey<V>(entries: seq<Entry<V>>, n: Path, i: nat, j: nat)
    requires Sorted(entries) && i <= j < |entries|
    requires !Less(Uri(entries[i].name), Uri(n))
    requires i == j ==> Uri(entries[i].name) != Uri(n)
    ensures Less(Uri(n), Uri(entries[j].name)) && entries[j].name != n
  {
    LessTotal(Uri(n), Uri(entries[i].name));
    LessTotal(Uri(n), Uri(n));
    if i < j && Uri(n) != Uri(entries[i].name) {
      LessTransitive(Uri(n), Uri(entries[i].name), Uri(entries[j].name));
    }
  }

  lemma PutSorted<V>(entries: seq<Entry<V>>, n: Path, v: V, i: nat, k: nat)
    requires Sorted(entries) && i <= k <= |entries|
    requires forall j :: 0 <= j < i ==> Less(Uri(entries[j].name), Uri(n))
    requires forall j :: k <= j < |entries| ==> Less(Uri(n), Uri(entries[j].name))
    ensures Sorted(entries[..i] + [Entry(n, v)] + entries[k..])
  {
  }

  /** The names scanned: those of the entries from start up to end, all under the prefix. */
  ghost predicate Scanned<V>(entries: seq<Entry<V>>, p: Path, names: seq<Path>, start: nat, end: nat) {
    && start <= end <= |entries| && |names| == end - start
    && (forall j :: 0 <= j < |names| ==> names[j] == entries[start + j].name && p <= names[j])
  }

  lemma ScanExact<V>(entries: seq<Entry<V>>, p: Path, names: seq<Path>, start: nat, end: nat)
    requires Sorted(entries) && Scanned(entries, p, names, start, end)
    requires forall j :: 0 <= j < start ==> Less(Uri(entries[j].name), Uri(p))
    requires end < |entries| ==> !Less(Uri(entries[end].name), Uri(p)) && !(p <= entries[end].name)
    ensures (forall n :: Stored(entries, n) && p <= n ==> n in names) <==> !Obstructed(entries, p)
  {
    if !Obstructed(entries, p) {
      forall n | Stored(entries, n) && p <= n ensures n in names {
        var k :| 0 <= k < |entries| && entries[k].name == n;
        ScanFinds(entries, p, names, start, end, k);
      }
    } else {
      ObstructedMisses(entries, p, names, start, end);
    }
  }

  lemma ScanFinds<V>(entries: seq<Entry<V>>, p: Path, names: seq<Path>, start: nat, end: nat, k: nat)
    requires Sorted(entries) && Scanned(entries, p, names, start, end)
    requires forall j :: 0 <= j < start ==> Less(Uri(entries[j].name), Uri(p))
    requires end < |entries| ==> !Less(Uri(entries[end].name), Uri(p)) && !(p <= entries[end].name)
    requires k < |entries| && p <= entries[k].name && !Obstructed(entries, p)
    ensures entries[k].name in names
  {
    UnderPrefix(p, entries[k].name);
    PrefixFirst(Uri(p), Uri(entries[k].name));
    if end < k {
      SkippedObstructed(entries, p, end, k);
    }
    assert start <= k < end;
    assert names[k - start] == entries[k].name;
  }

  lemma ObstructedMisses<V>(entries: seq<Entry<V>>, p: Path, names: seq<Path>, start: nat, end: nat)
    requires Sorted(entries) && Scanned(entries, p, names, start, end) && Obstructed(entries, p)
    requires forall j :: 0 <= j < start ==> Less(Uri(entries[j].name), Uri(p))
    ensures exists n :: Stored(entries, n) && p <= n && n !in names
  {
    var b :| Stored(entries, b) && Obstructs(p, b);
    var d :| Stored(entries, d) && p < d;
    var i :| 0 <= i < |entries| && entries[i].name == b;
    var k :| 0 <= k < |entries| && entries[k].name == d;
    ObstructionBetween(p, b, d);
    LessTotal(Uri(b), Uri(p));
    KeysInOrder(entries, i, k);
    forall j | start <= j < end ensures p <= entries[j].name {
      assert names[j - start] == entries[j].name;
    }
    assert end <= i < k;
    LessTotal(Uri(d), Uri(d));
    assert d !in names;
  }

  lemma KeysInOrder<V>(entries: seq<Entry<V>>, i: nat, k: nat)
    requires Sorted(entries) && i < |entries| && k < |entries|
    requires Less(Uri(entries[i].name), Uri(entries[k].name))
    ensures i < k
  {
    LessTotal(Uri(entries[i].name), Uri(entries[k].name));
    LessTotal(Uri(entries[i].name), Uri(entries[i].name));
  }
}
