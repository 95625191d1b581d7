/**
 * What the route handlers ask of Prisma's `findMany` and `count`: the rows of
 * a table that satisfy a `where` filter, ordered by an `orderBy` key.
 * Ordering keys are lists of parts compared lexicographically; strings
 * compare by code point.
 */
module Query {
  import opened Common

  /** One column of an `orderBy` list. A descending column is stored negated. */
  datatype Part = Num(n: int) | Str(s: string)

  type Key = seq<Part>

  /** Code-point lexicographic order on strings. */
  predicate StrLe(a: string, b: string)
    decreases |a|
  {
    a == [] || (b != [] && (a[0] < b[0] || (a[0] == b[0] && StrLe(a[1..], b[1..]))))
  }

  predicate PartLe(x: Part, y: Part) {
    match (x, y)
    case (Num(a), Num(b)) => a <= b
    case (Str(a), Str(b)) => StrLe(a, b)
    case (Num(_), Str(_)) => true
    case (Str(_), Num(_)) => false
  }

  /** Lexicographic order on keys: the first column decides, ties go to the next. */
  predicate KeyLe(a: Key, b: Key)
    decreases |a|
  {
    a == [] || (b != [] && ((PartLe(a[0], b[0]) && a[0] != b[0]) || (a[0] == b[0] && KeyLe(a[1..], b[1..]))))
  }

  lemma {:induction false} StrLeTotal(a: string, b: string)
    ensures StrLe(a, b) || StrLe(b, a)
    decreases |a|
  {
    if a != [] && b != [] && a[0] == b[0] {
      StrLeTotal(a[1..], b[1..]);
    }
  }

  lemma {:induction false} StrLeAntisym(a: string, b: string)
    requires StrLe(a, b) && StrLe(b, a)
    ensures a == b
    decreases |a|
  {
    if a != [] {
      StrLeAntisym(a[1..], b[1..]);
      assert a == [a[0]] + a[1..] && b == [b[0]] + b[1..];
    }
  }

  lemma {:induction false} StrLeTrans(a: string, b: string, c: string)
    requires StrLe(a, b) && StrLe(b, c)
    ensures StrLe(a, c)
    decreases |a|
  {
    if a != [] && b != [] && c != [] && a[0] == b[0] && b[0] == c[0] {
      StrLeTrans(a[1..], b[1..], c[1..]);
    }
  }

  lemma PartLeProps(x: Part, y: Part, z: Part)
    ensures PartLe(x, y) || PartLe(y, x)
    ensures PartLe(x, y) && PartLe(y, x) ==> x == y
    ensures PartLe(x, y) && PartLe(y, z) ==> PartLe(x, z)
  {
    if x.Str? && y.Str? {
      StrLeTotal(x.s, y.s);
      if StrLe(x.s, y.s) && StrLe(y.s, x.s) { StrLeAntisym(x.s, y.s); }
      if z.Str? && StrLe(x.s, y.s) && StrLe(y.s, z.s) { StrLeTrans(x.s, y.s, z.s); }
    }
  }

  lemma {:induction false} KeyLeTotal(a: Key, b: Key)
    ensures KeyLe(a, b) || KeyLe(b, a)
    decreases |a|
  {
    if a != [] && b != [] {
      PartLeProps(a[0], b[0], b[0]);
      if a[0] == b[0] { KeyLeTotal(a[1..], b[1..]); }
    }
  }

  lemma {:induction false} KeyLeTrans(a: Key, b: Key, c: Key)
    requires KeyLe(a, b) && KeyLe(b, c)
    ensures KeyLe(a, c)
    decreases |a|
  {
    if a != [] {
      PartLeProps(a[0], b[0], c[0]);
      PartLeProps(b[0], c[0], a[0]);
      PartLeProps(c[0], a[0], b[0]);
      if a[0] == b[0] && b[0] == c[0] { KeyLeTrans(a[1..], b[1..], c[1..]); }
    }
  }

  predicate SortedBy<T>(xs: seq<T>, key: T -> Key) {
    forall i, j :: 0 <= i < j < |xs| ==> KeyLe(key(xs[i]), key(xs[j]))
  }

  lemma InsertFront<T>(x: T, xs: seq<T>, key: T -> Key)
    requires SortedBy(xs, key) && xs != [] && KeyLe(key(x), key(xs[0]))
    ensures SortedBy([x] + xs, key)
  {
    var r := [x] + xs;
    forall i, j | 0 <= i < j < |r| ensures KeyLe(key(r[i]), key(r[j])) {
      if i == 0 && j > 1 {
        KeyLeTrans(key(x), key(xs[0]), key(xs[j - 1]));
      }
    }
  }

  lemma InsertBehind<T>(x: T, xs: seq<T>, rest: seq<T>, key: T -> Key)
    requires SortedBy(xs, key) && xs != [] && !KeyLe(key(x), key(xs[0]))
    requires SortedBy(rest, key) && multiset(rest) == multiset(xs[1..]) + multiset{x}
    ensures SortedBy([xs[0]] + rest, key)
  {
    KeyLeTotal(key(x), key(xs[0]));
    var r := [xs[0]] + rest;
    forall i, j | 0 <= i < j < |r| ensures KeyLe(key(r[i]), key(r[j])) {
      if i == 0 {
        var y := rest[j - 1];
        assert y in multiset(rest);
        if y != x {
          assert y in multiset(xs[1..]);
          var k :| 0 <= k < |xs[1..]| && xs[1..][k] == y;
          assert xs[k + 1] == y;
        }
      }
    }
  }

  function Insert<T>(x: T, xs: seq<T>, key: T -> Key): (r: seq<T>)
    requires SortedBy(xs, key)
    ensures multiset(r) == multiset(xs) + multiset{x}
    ensures SortedBy(r, key)
  {
    if xs == [] then [x]
    else if KeyLe(key(x), key(xs[0])) then
      InsertFront(x, xs, key);
      [x] + xs
    else
      var rest := Insert(x, xs[1..], key);
      InsertBehind(x, xs, rest, key);
      assert xs == [xs[0]] + xs[1..];
      [xs[0]] + rest
  }

  /** An insertion sort: a permutation of `xs` ordered by `key`. */
  function SortBy<T>(xs: seq<T>, key: T -> Key): (r: seq<T>)
    ensures multiset(r) == multiset(xs)
    ensures SortedBy(r, key)
  {
    if xs == [] then []
    else
      assert xs == [xs[0]] + xs[1..];
      Insert(xs[0], SortBy(xs[1..], key), key)
  }

  /** The keys of table `m` whose rows satisfy the filter. */
  function KeysWhere<R>(m: map<Id, R>, keep: R -> bool): set<Id> {
    set k | k in m && keep(m[k])
  }

  /** Prisma `count({ where: keep })`. */
  function Count<R>(m: map<Id, R>, keep: R -> bool): nat {
    |KeysWhere(m, keep)|
  }

  /** `rs` is what `findMany({ where: keep, orderBy: key })` answers on table
      `m`: matching rows only, every matching row, one entry per row, in order. */
  ghost predicate IsListing<R>(rs: seq<R>, m: map<Id, R>, keep: R -> bool, key: R -> Key) {
    && (forall r :: r in rs ==> r in m.Values && keep(r))
    && (forall k :: k in m && keep(m[k]) ==> m[k] in rs)
    && |rs| == Count(m, keep)
    && SortedBy(rs, key)
  }

  predicate Distinct<T(==)>(s: seq<T>) {
    forall i, j :: 0 <= i < j < |s| ==> s[i] != s[j]
  }

  lemma {:induction false} DistinctCard<T>(s: seq<T>)
    requires Distinct(s)
    ensures |set x | x in s| == |s|
  {
    if s != [] {
      DistinctCard(s[1..]);
      assert (set x | x in s) == {s[0]} + (set x | x in s[1..]);
      assert s[0] !in s[1..];
    }
  }

  /** Prisma `findMany`: enumerates the table, keeps the matching rows and sorts them. */
  method Select<R(==)>(m: map<Id, R>, keep: R -> bool, key: R -> Key) returns (rs: seq<R>)
    ensures IsListing(rs, m, keep, key)
  {
    var ks := MatchingKeys(m, keep);
    SortedRowsListing(m, keep, key, ks);
    rs := SortBy(RowsAt(m, ks), key);
  }

  /** The scan of the table: every key whose row matches, once each, in
      no particular order. */
  method MatchingKeys<R>(m: map<Id, R>, keep: R -> bool) returns (ks: seq<Id>)
    ensures Distinct(ks)
    ensures forall k :: k in ks <==> k in m && keep(m[k])
  {
    ks := [];
    var rest := m.Keys;
    while rest != {}
      invariant rest <= m.Keys
      invariant Distinct(ks)
      invariant forall k :: k in ks <==> k in m && k !in rest && keep(m[k])
      decreases |rest|
    {
      var k :| k in rest;
      if keep(m[k]) {
        ks := ks + [k];
      }
      rest := rest - {k};
    }
  }

  /** The rows stored under keys `ks`, in the order of the keys. */
  function RowsAt<R>(m: map<Id, R>, ks: seq<Id>): (rows: seq<R>)
    requires forall k :: k in ks ==> k in m
    ensures |rows| == |ks| && forall i :: 0 <= i < |ks| ==> rows[i] == m[ks[i]]
  {
    seq(|ks|, i requires 0 <= i < |ks| => m[ks[i]])
  }

  /** Sorting the rows of the matching keys gives the listing. */
  lemma SortedRowsListing<R>(m: map<Id, R>, keep: R -> bool, key: R -> Key, ks: seq<Id>)
    requires Distinct(ks)
    requires forall k :: k in ks <==> k in m && keep(m[k])
    ensures IsListing(SortBy(RowsAt(m, ks), key), m, keep, key)
  {
    var rows := RowsAt(m, ks);
    var rs := SortBy(rows, key);
    DistinctCard(ks);
    assert (set x | x in ks) == KeysWhere(m, keep);
    assert |rs| == |multiset(rs)| == |multiset(rows)| == |rows|;
    RowsAtMatch(m, keep, ks, rs);
    RowsAtCover(m, keep, ks, rs);
  }

  /** Every entry of a permutation of the rows is a matching row. */
  lemma RowsAtMatch<R>(m: map<Id, R>, keep: R -> bool, ks: seq<Id>, rs: seq<R>)
    requires forall k :: k in ks <==> k in m && keep(m[k])
    requires multiset(rs) == multiset(RowsAt(m, ks))
    ensures forall r :: r in rs ==> r in m.Values && keep(r)
  {
    var rows := RowsAt(m, ks);
    forall r | r in rs ensures r in m.Values && keep(r) {
      assert r in multiset(rows);
      var i :| 0 <= i < |rows| && rows[i] == r;
      assert ks[i] in m;
    }
  }

  /** Every matching row is an entry of a permutation of the rows. */
  lemma RowsAtCover<R>(m: map<Id, R>, keep: R -> bool, ks: seq<Id>, rs: seq<R>)
    requires forall k :: k in ks <==> k in m && keep(m[k])
    requires multiset(rs) == multiset(RowsAt(m, ks))
    ensures forall k :: k in m && keep(m[k]) ==> m[k] in rs
  {
    var rows := RowsAt(m, ks);
    forall k | k in m && keep(m[k]) ensures m[k] in rs {
      var i :| 0 <= i < |ks| && ks[i] == k;
      assert rows[i] in multiset(rs);
    }
  }

  /** Adding a row under a fresh key raises a count by one exactly when the row matches. */
  lemma CountInsertFresh<R>(m: map<Id, R>, keep: R -> bool, k: Id, r: R)
    requires k !in m
    ensures Count(m[k := r], keep) == Count(m, keep) + (if keep(r) then 1 else 0)
  {
    if keep(r) {
      assert KeysWhere(m[k := r], keep) == KeysWhere(m, keep) + {k};
    } else {
      assert KeysWhere(m[k := r], keep) == KeysWhere(m, keep);
    }
  }

  /** Replacing a row that keeps matching (or keeps not matching) leaves a count unchanged. */
  lemma CountReplace<R>(m: map<Id, R>, keep: R -> bool, k: Id, r: R)
    requires k in m && keep(r) == keep(m[k])
    ensures Count(m[k := r], keep) == Count(m, keep)
  {
    assert KeysWhere(m[k := r], keep) == KeysWhere(m, keep);
  }

  /** Splitting a filter by a second predicate splits its count. */
  lemma CountSplit<R>(m: map<Id, R>, keep: R -> bool, p: R -> bool)
    ensures Count(m, x => keep(x) && p(x)) + Count(m, x => keep(x) && !p(x)) == Count(m, keep)
  {
    var a := KeysWhere(m, x => keep(x) && p(x));
    var b := KeysWhere(m, x => keep(x) && !p(x));
    assert a * b == {};
    assert a + b == KeysWhere(m, keep);
  }

  /** A stronger filter never counts more. */
  lemma CountMono<R>(m: map<Id, R>, p: R -> bool, q: R -> bool)
    requires forall x :: p(x) ==> q(x)
    ensures Count(m, p) <= Count(m, q)
  {
    var a := KeysWhere(m, p);
    var b := KeysWhere(m, q);
    assert a <= b;
    assert b == a + (b - a);
  }
}
