/**
 * The checkbox selection lists of the front end: ticking an id that is in
 * the list removes it, ticking one that is not appends it.
 */
module Selection {
  import opened Common

  /** `list.includes(id) ? list.filter(x => x !== id) : [...list, id]`. */
  function Toggle(ids: seq<string>, id: string): (r: seq<string>)
    ensures id in ids ==> id !in r && IsSubsequence(r, ids)
    ensures id !in ids ==> r == ids + [id]
  {
    if id in ids then Filter(ids, (x: string) => x != id) else ids + [id]
  }

  /** A box is ticked after the toggle exactly when it was ticked before
      or it is the toggled one, but not both. */
  lemma ToggleFlips(ids: seq<string>, id: string, x: string)
    ensures x in Toggle(ids, id) <==> (x in ids) != (x == id)
  {
  }

  /** Filtering out an id distributes over concatenation. */
  lemma {:induction false} FilterOutAppend(a: seq<string>, b: seq<string>, id: string)
    ensures Filter(a + b, (x: string) => x != id) == Filter(a, (x: string) => x != id) + Filter(b, (x: string) => x != id)
    decreases |a|
  {
    if a == [] {
      assert a + b == b;
    } else {
      assert (a + b)[1..] == a[1..] + b;
      FilterOutAppend(a[1..], b, id);
    }
  }

  /** Ticking an unticked box twice restores the list. */
  lemma {:induction false} ToggleTwiceRestores(ids: seq<string>, id: string)
    requires id !in ids
    ensures Toggle(Toggle(ids, id), id) == ids
  {
    assert id in ids + [id];
    FilterOutAppend(ids, [id], id);
    assert forall i :: 0 <= i < |ids| ==> ids[i] != id;
    assert Filter([id], (x: string) => x != id) == [];
  }

  /** Ticking a box of a list without duplicates keeps it without
      duplicates. */
  lemma ToggleKeepsDistinct(ids: seq<string>, id: string)
    requires forall i, j :: 0 <= i < j < |ids| ==> ids[i] != ids[j]
    ensures var r := Toggle(ids, id); forall i, j :: 0 <= i < j < |r| ==> r[i] != r[j]
  {
    if id in ids {
      SubsequenceDistinct(Toggle(ids, id), ids);
    }
  }

  /** A subsequence of a list without duplicates has none. */
  lemma {:induction false} SubsequenceDistinct(a: seq<string>, b: seq<string>)
    requires IsSubsequence(a, b)
    requires forall i, j :: 0 <= i < j < |b| ==> b[i] != b[j]
    ensures forall i, j :: 0 <= i < j < |a| ==> a[i] != a[j]
    decreases |b|
  {
    if a != [] && b != [] {
      if a[0] == b[0] {
        SubsequenceDistinct(a[1..], b[1..]);
        SubsequenceIn(a[1..], b[1..]);
        forall i, j | 0 <= i < j < |a| ensures a[i] != a[j] {
          if i == 0 {
            assert a[j] == a[1..][j - 1];
            assert b[0] !in b[1..] by {
              forall k | 0 <= k < |b[1..]| ensures b[1..][k] != b[0] {
                assert b[1..][k] == b[k + 1];
              }
            }
          } else {
            assert a[i] == a[1..][i - 1] && a[j] == a[1..][j - 1];
          }
        }
      } else {
        SubsequenceDistinct(a, b[1..]);
      }
    }
  }

  /** Every element of a subsequence is an element of the list. */
  lemma {:induction false} SubsequenceIn(a: seq<string>, b: seq<string>)
    requires IsSubsequence(a, b)
    ensures forall x :: x in a ==> x in b
    decreases |b|
  {
    if a != [] && b != [] {
      if a[0] == b[0] {
        SubsequenceIn(a[1..], b[1..]);
        forall x | x in a ensures x in b {
          if x != a[0] {
            assert x in a[1..];
          }
        }
      } else {
        SubsequenceIn(a, b[1..]);
      }
    }
  }
}
