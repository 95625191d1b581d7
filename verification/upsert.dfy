/**
 * Prisma's `upsert` on a compound unique key, over a table stored as a map
 * from id to row: the row carrying the natural key is overwritten, or a new
 * row is created under a fresh id. A sync writes a whole list of rows this
 * way, one after the other.
 */
module Upserts {
  import opened Common
  import opened Store

  /** The id of the row whose natural key is `nk`, if any. */
  function Find<D, K(==)>(m: map<Id, D>, key: D -> Option<K>, nk: K): (r: Option<Id>)
    requires Unique(m, key)
    ensures r.Some? ==> r.value in m && key(m[r.value]) == Some(nk)
    ensures r.None? ==> forall i :: i in m ==> key(m[i]) != Some(nk)
  {
    if exists i :: i in m && key(m[i]) == Some(nk) then
      var i :| i in m && key(m[i]) == Some(nk);
      Some(i)
    else
      None
  }

  /** Some row of `m` carries the natural key `nk`. */
  ghost predicate Carries<D, K>(m: map<Id, D>, key: D -> Option<K>, nk: Option<K>) {
    exists i :: i in m && key(m[i]) == nk
  }

  /** One `upsert`: the row with the natural key of `d` becomes `d`; when
      there is none, `d` is added under a fresh id. Rows with other keys
      stay, the table grows by one row exactly when the key was new, and
      the natural key stays unique. */
  function Upsert<D, K(==)>(m: map<Id, D>, key: D -> Option<K>, d: D): (r: map<Id, D>)
    requires Unique(m, key) && key(d).Some?
    ensures Unique(r, key)
    ensures m.Keys <= r.Keys
    ensures (exists i :: i in m && key(m[i]) == key(d)) ==> r.Keys == m.Keys
    ensures (forall i :: i in m ==> key(m[i]) != key(d)) ==> |r.Keys| == |m.Keys| + 1
    ensures forall i :: i in r && key(r[i]) == key(d) ==> r[i] == d
    ensures forall i :: i in m && key(m[i]) != key(d) ==> r[i] == m[i]
    ensures forall i :: i in m ==> key(r[i]) == key(m[i])
    ensures r.Keys <= m.Keys + {FreshId(m.Keys)}
    ensures forall i :: i in r && i !in m ==> r[i] == d
    ensures Carries(r, key, key(d))
  {
    match Find(m, key, key(d).value)
    case Some(i) =>
      OverwriteKeepsUnique(m, key, i, d);
      assert i in m[i := d];
      m[i := d]
    case None =>
      var f := FreshId(m.Keys);
      AddKeepsUnique(m, key, f, d);
      assert f in m[f := d];
      m[f := d]
  }

  lemma OverwriteKeepsUnique<D, K>(m: map<Id, D>, key: D -> Option<K>, i: Id, d: D)
    requires Unique(m, key) && i in m && key(m[i]) == key(d) && key(d).Some?
    ensures Unique(m[i := d], key)
  {
    var r := m[i := d];
    forall a, b | a in r && b in r && a != b && key(r[a]).Some?
      ensures key(r[a]) != key(r[b])
    {
      if a == i {
        assert key(m[a]) != key(m[b]);
      } else if b == i {
        assert key(m[a]) != key(m[b]);
      }
    }
  }

  lemma AddKeepsUnique<D, K>(m: map<Id, D>, key: D -> Option<K>, f: Id, d: D)
    requires Unique(m, key) && f !in m
    requires forall i :: i in m ==> key(m[i]) != key(d)
    ensures Unique(m[f := d], key)
    ensures m[f := d].Keys == m.Keys + {f} && |m[f := d].Keys| == |m.Keys| + 1
  {
    var r := m[f := d];
    forall a, b | a in r && b in r && a != b && key(r[a]).Some?
      ensures key(r[a]) != key(r[b])
    {
      if a == f {
        assert key(m[b]) != key(d);
      } else if b == f {
        assert key(m[a]) != key(d);
      }
    }
    assert r.Keys == m.Keys + {f};
  }

  /** Every row of `ds` carries a natural key. */
  predicate AllKeyed<D, K>(ds: seq<D>, key: D -> Option<K>) {
    forall j :: 0 <= j < |ds| ==> key(ds[j]).Some?
  }

  /** The upserts of a sync loop, in order. */
  function UpsertAll<D, K(==)>(m: map<Id, D>, key: D -> Option<K>, ds: seq<D>): (r: map<Id, D>)
    requires Unique(m, key) && AllKeyed(ds, key)
    ensures Unique(r, key) && m.Keys <= r.Keys
    decreases |ds|
  {
    if ds == [] then m else UpsertAll(Upsert(m, key, ds[0]), key, ds[1..])
  }

  /** The last row of `ds` with natural key `nk`: the one that wins. */
  function LastFor<D, K(==)>(ds: seq<D>, key: D -> Option<K>, nk: Option<K>): (r: Option<D>)
    ensures r.Some? ==> key(r.value) == nk && r.value in ds
    ensures r.None? ==> forall j :: 0 <= j < |ds| ==> key(ds[j]) != nk
    decreases |ds|
  {
    if ds == [] then None
    else
      var rest := LastFor(ds[1..], key, nk);
      if rest.Some? then rest
      else if key(ds[0]) == nk then Some(ds[0])
      else None
  }

  /** Upserting never removes a row or changes the natural key of one. */
  lemma {:induction false} UpsertAllKeepsKeys<D, K>(m: map<Id, D>, key: D -> Option<K>, ds: seq<D>)
    requires Unique(m, key) && AllKeyed(ds, key)
    ensures forall i :: i in m ==> key(UpsertAll(m, key, ds)[i]) == key(m[i])
    decreases |ds|
  {
    if ds != [] {
      var m1 := Upsert(m, key, ds[0]);
      UpsertAllKeepsKeys(m1, key, ds[1..]);
    }
  }

  /** After the loop, every natural key of `ds` is carried by some row. */
  lemma {:induction false} UpsertAllCovers<D, K>(m: map<Id, D>, key: D -> Option<K>, ds: seq<D>)
    requires Unique(m, key) && AllKeyed(ds, key)
    ensures forall j :: 0 <= j < |ds| ==> Carries(UpsertAll(m, key, ds), key, key(ds[j]))
    decreases |ds|
  {
    if ds != [] {
      var m1 := Upsert(m, key, ds[0]);
      var r := UpsertAll(m1, key, ds[1..]);
      assert UpsertAll(m, key, ds) == r;
      UpsertAllCovers(m1, key, ds[1..]);
      UpsertAllKeepsKeys(m1, key, ds[1..]);
      var f := Find(m, key, key(ds[0]).value);
      var i0 := if f.Some? then f.value else FreshId(m.Keys);
      assert i0 in m1 && key(m1[i0]) == key(ds[0]);
      assert i0 in r && key(r[i0]) == key(ds[0]);
      forall j | 0 <= j < |ds|
        ensures Carries(r, key, key(ds[j]))
      {
        if j == 0 {
          assert i0 in r && key(r[i0]) == key(ds[j]);
        } else {
          assert ds[j] == ds[1..][j - 1];
        }
      }
    }
  }

  /** A row whose natural key `ds` never mentions comes through unchanged
      from the table before the loop. */
  lemma {:induction false} UpsertAllUntouched<D, K>(m: map<Id, D>, key: D -> Option<K>, ds: seq<D>)
    requires Unique(m, key) && AllKeyed(ds, key)
    ensures forall i :: i in UpsertAll(m, key, ds) && LastFor(ds, key, key(UpsertAll(m, key, ds)[i])).None? ==>
      i in m && UpsertAll(m, key, ds)[i] == m[i]
    decreases |ds|
  {
    if ds != [] {
      var m1 := Upsert(m, key, ds[0]);
      var r := UpsertAll(m1, key, ds[1..]);
      UpsertAllUntouched(m1, key, ds[1..]);
      forall i | i in r && LastFor(ds, key, key(r[i])).None?
        ensures i in m && r[i] == m[i]
      {
        assert LastFor(ds[1..], key, key(r[i])).None?;
        assert key(ds[0]) != key(r[i]);
      }
    }
  }

  /** A row whose natural key `ds` mentions holds the last row of `ds` with
      that key. */
  lemma {:induction false} UpsertAllLastWins<D, K>(m: map<Id, D>, key: D -> Option<K>, ds: seq<D>)
    requires Unique(m, key) && AllKeyed(ds, key)
    ensures forall i :: i in UpsertAll(m, key, ds) && LastFor(ds, key, key(UpsertAll(m, key, ds)[i])).Some? ==>
      UpsertAll(m, key, ds)[i] == LastFor(ds, key, key(UpsertAll(m, key, ds)[i])).value
    decreases |ds|
  {
    if ds != [] {
      var m1 := Upsert(m, key, ds[0]);
      var r := UpsertAll(m1, key, ds[1..]);
      UpsertAllLastWins(m1, key, ds[1..]);
      UpsertAllUntouched(m1, key, ds[1..]);
      forall i | i in r && LastFor(ds, key, key(r[i])).Some?
        ensures r[i] == LastFor(ds, key, key(r[i])).value
      {
        if LastFor(ds[1..], key, key(r[i])).None? {
          assert i in m1 && r[i] == m1[i];
          assert key(ds[0]) == key(r[i]);
        }
      }
    }
  }

  /** When every natural key of `ds` is already present, the loop adds no
      row. */
  lemma {:induction false} UpsertAllNoGrowth<D, K>(m: map<Id, D>, key: D -> Option<K>, ds: seq<D>)
    requires Unique(m, key) && AllKeyed(ds, key)
    requires forall j :: 0 <= j < |ds| ==> Carries(m, key, key(ds[j]))
    ensures UpsertAll(m, key, ds).Keys == m.Keys
    decreases |ds|
  {
    if ds != [] {
      var m1 := Upsert(m, key, ds[0]);
      assert Carries(m, key, key(ds[0]));
      assert m1.Keys == m.Keys;
      forall j | 0 <= j < |ds| - 1
        ensures Carries(m1, key, key(ds[1..][j]))
      {
        assert ds[1..][j] == ds[j + 1];
        assert Carries(m, key, key(ds[j + 1]));
        var i :| i in m && key(m[i]) == key(ds[j + 1]);
        assert key(m1[i]) == key(m[i]);
      }
      UpsertAllNoGrowth(m1, key, ds[1..]);
    }
  }

  /** Running the same sync twice leaves the table as the first run left
      it: no row is added and every row keeps its contents. */
  lemma UpsertAllIdempotent<D, K>(m: map<Id, D>, key: D -> Option<K>, ds: seq<D>)
    requires Unique(m, key) && AllKeyed(ds, key)
    ensures UpsertAll(UpsertAll(m, key, ds), key, ds) == UpsertAll(m, key, ds)
  {
    var m1 := UpsertAll(m, key, ds);
    var m2 := UpsertAll(m1, key, ds);
    UpsertAllCovers(m, key, ds);
    UpsertAllNoGrowth(m1, key, ds);
    UpsertAllKeepsKeys(m1, key, ds);
    UpsertAllLastWins(m, key, ds);
    UpsertAllLastWins(m1, key, ds);
    UpsertAllUntouched(m1, key, ds);
    forall i | i in m1 ensures m2[i] == m1[i] {
      assert key(m2[i]) == key(m1[i]);
    }
  }

  /** Two loops in a row are one loop over both sequences. */
  lemma {:induction false} UpsertAllAppend<D, K>(m: map<Id, D>, key: D -> Option<K>, a: seq<D>, b: seq<D>)
    requires Unique(m, key) && AllKeyed(a, key) && AllKeyed(b, key)
    ensures AllKeyed(a + b, key)
    ensures UpsertAll(m, key, a + b) == UpsertAll(UpsertAll(m, key, a), key, b)
    decreases |a|
  {
    if a == [] {
      assert a + b == b;
    } else {
      assert (a + b)[1..] == a[1..] + b;
      UpsertAllAppend(Upsert(m, key, a[0]), key, a[1..], b);
    }
  }
}
