/**
 * The sidebar of the front end: eleven links, five of them for firm users
 * only, and the highlighting of the link of the current page.
 */
module Navigation {
  import opened Common

  datatype NavItem = NavItem(name: string, href: string, firmOnly: bool)

  /** The links in the order they are declared. */
  const Items: seq<NavItem> := [
    NavItem("Dashboard", "/", false),
    NavItem("Cases", "/cases", false),
    NavItem("Properties", "/properties", false),
    NavItem("Calendar", "/calendar", false),
    NavItem("Bulk Operations", "/bulk", true),
    NavItem("Analytics", "/analytics", false),
    NavItem("Approvals", "/approvals", false),
    NavItem("E-Filing Status", "/efiling-status", true),
    NavItem("Clients", "/clients", true),
    NavItem("Reports", "/reports", true),
    NavItem("Users", "/users", true)
  ]

  /** Whether a user sees a link: `!(item.firmOnly && !isFirmUser)`. */
  predicate SeenBy(isFirmUser: bool, it: NavItem) {
    !(it.firmOnly && !isFirmUser)
  }

  /** `items.filter(item => ...)` over the links. */
  function Shown(items: seq<NavItem>, isFirmUser: bool): seq<NavItem> {
    if items == [] then []
    else (if SeenBy(isFirmUser, items[0]) then [items[0]] else []) + Shown(items[1..], isFirmUser)
  }

  /** The filter keeps exactly the links the user may see, in their order. */
  lemma {:induction false} ShownIsFilter(items: seq<NavItem>, isFirmUser: bool)
    ensures IsSubsequence(Shown(items, isFirmUser), items)
    ensures forall it :: it in Shown(items, isFirmUser) <==> it in items && SeenBy(isFirmUser, it)
    decreases |items|
  {
    if items != [] {
      var rest := Shown(items[1..], isFirmUser);
      ShownIsFilter(items[1..], isFirmUser);
      if SeenBy(isFirmUser, items[0]) {
        assert ([items[0]] + rest)[1..] == rest;
      } else {
        assert [] + rest == rest;
        SubsequenceSkip(rest, items[0], items[1..]);
        assert [items[0]] + items[1..] == items;
      }
      forall it ensures it in items <==> it == items[0] || it in items[1..] {
        assert items == [items[0]] + items[1..];
      }
    }
  }

  /** The links a user sees: all of them for a firm user, those not marked
      firm-only for anyone else, a signed-out user included. */
  function Visible(isFirmUser: bool): seq<NavItem> {
    Shown(Items, isFirmUser)
  }

  /** The visible links are the permitted ones, in declaration order. */
  lemma VisibleIsFilter(isFirmUser: bool)
    ensures IsSubsequence(Visible(isFirmUser), Items)
    ensures forall it :: it in Visible(isFirmUser) <==> it in Items && (isFirmUser || !it.firmOnly)
  {
    ShownIsFilter(Items, isFirmUser);
  }

  /** A run of links the user may all see is kept whole. */
  lemma {:induction false} ShownAll(items: seq<NavItem>, isFirmUser: bool)
    requires forall i :: 0 <= i < |items| ==> SeenBy(isFirmUser, items[i])
    ensures Shown(items, isFirmUser) == items
    decreases |items|
  {
    if items != [] {
      assert forall i :: 0 <= i < |items[1..]| ==> items[1..][i] == items[i + 1];
      ShownAll(items[1..], isFirmUser);
      assert [items[0]] + items[1..] == items;
    }
  }

  /** A firm user sees all eleven links, in order. */
  lemma FirmSeesAll()
    ensures Visible(true) == Items
  {
    ShownAll(Items, true);
  }

  /** Of the last seven links, anyone but a firm user sees two. */
  lemma OthersSeeTwoOfLastSeven(isFirmUser: bool)
    requires !isFirmUser
    ensures Shown(Items[4..], isFirmUser) == [Items[5], Items[6]]
  {
    assert Shown(Items[11..], isFirmUser) == [];
    assert Items[10..][1..] == Items[11..];
    assert Shown(Items[10..], isFirmUser) == [];
    assert Items[9..][1..] == Items[10..];
    assert Shown(Items[9..], isFirmUser) == [];
    assert Items[8..][1..] == Items[9..];
    assert Shown(Items[8..], isFirmUser) == [];
    assert Items[7..][1..] == Items[8..];
    assert Shown(Items[7..], isFirmUser) == [];
    assert Items[6..][1..] == Items[7..];
    assert Shown(Items[6..], isFirmUser) == [Items[6]];
    assert Items[5..][1..] == Items[6..];
    assert Shown(Items[5..], isFirmUser) == [Items[5], Items[6]];
    assert Items[4..][1..] == Items[5..];
    assert Shown(Items[4..], isFirmUser) == [Items[5], Items[6]];
  }

  /** Of the last nine links, anyone but a firm user sees four. */
  lemma OthersSeeFourOfLastNine(isFirmUser: bool)
    requires !isFirmUser
    ensures Shown(Items[2..], isFirmUser) == [Items[2], Items[3], Items[5], Items[6]]
  {
    OthersSeeTwoOfLastSeven(isFirmUser);
    assert Items[3..][1..] == Items[4..];
    assert Shown(Items[3..], isFirmUser) == [Items[3], Items[5], Items[6]];
    assert Items[2..][1..] == Items[3..];
    assert Shown(Items[2..], isFirmUser) == [Items[2], Items[3], Items[5], Items[6]];
  }

  /** Of the last ten links, anyone but a firm user sees five. */
  lemma OthersSeeFiveOfLastTen(isFirmUser: bool)
    requires !isFirmUser
    ensures Shown(Items[1..], isFirmUser) == [Items[1], Items[2], Items[3], Items[5], Items[6]]
  {
    OthersSeeFourOfLastNine(isFirmUser);
    assert Items[1..][1..] == Items[2..];
  }

  /** Anyone else sees exactly these six, in order. */
  lemma OthersSeeSix(isFirmUser: bool)
    requires !isFirmUser
    ensures Visible(isFirmUser) == [Items[0], Items[1], Items[2], Items[3], Items[5], Items[6]]
  {
    OthersSeeFiveOfLastTen(isFirmUser);
    assert Items[0..][1..] == Items[1..];
    assert Shown(Items[0..], isFirmUser) == [Items[0], Items[1], Items[2], Items[3], Items[5], Items[6]];
    assert Items[0..] == Items;
  }

  /** `location.pathname === item.href`: a link is highlighted only on its
      own page, never on a page below it. */
  predicate Active(pathname: string, it: NavItem) {
    pathname == it.href
  }

  /** No two links share an href. */
  lemma HrefsDistinct(k: int, l: int)
    requires 0 <= k < l < |Items|
    ensures Items[k].href != Items[l].href
  {
  }

  /** At most one link of a visible list is highlighted. */
  lemma AtMostOneActive(pathname: string, v: seq<NavItem>, i: int, j: int)
    requires IsSubsequence(v, Items) && 0 <= i < j < |v|
    ensures !(Active(pathname, v[i]) && Active(pathname, v[j]))
  {
    SubsequenceOrder(v, Items, i, j);
    var k, l :| 0 <= k < l < |Items| && v[i] == Items[k] && v[j] == Items[l];
    HrefsDistinct(k, l);
  }

  /** Two positions of a subsequence come from two positions of the list,
      in the same order. */
  lemma {:induction false} SubsequenceOrder(a: seq<NavItem>, b: seq<NavItem>, i: int, j: int)
    requires IsSubsequence(a, b) && 0 <= i < j < |a|
    ensures exists k, l :: 0 <= k < l < |b| && a[i] == b[k] && a[j] == b[l]
    decreases |b|
  {
    if a[0] == b[0] {
      if i == 0 {
        assert a[j] == a[1..][j - 1];
        SubsequenceAt(a[1..], b[1..], j - 1);
        var l :| 0 <= l < |b[1..]| && a[1..][j - 1] == b[1..][l];
        assert a[i] == b[0] && a[j] == b[l + 1];
      } else {
        SubsequenceOrder(a[1..], b[1..], i - 1, j - 1);
        var k, l :| 0 <= k < l < |b[1..]| && a[1..][i - 1] == b[1..][k] && a[1..][j - 1] == b[1..][l];
        assert a[i] == b[k + 1] && a[j] == b[l + 1];
      }
    } else {
      SubsequenceOrder(a, b[1..], i, j);
      var k, l :| 0 <= k < l < |b[1..]| && a[i] == b[1..][k] && a[j] == b[1..][l];
      assert a[i] == b[k + 1] && a[j] == b[l + 1];
    }
  }

  /** Every position of a subsequence comes from a position of the list. */
  lemma {:induction false} SubsequenceAt(a: seq<NavItem>, b: seq<NavItem>, i: int)
    requires IsSubsequence(a, b) && 0 <= i < |a|
    ensures exists k :: 0 <= k < |b| && a[i] == b[k]
    decreases |b|
  {
    if a[0] == b[0] {
      if i > 0 {
        SubsequenceAt(a[1..], b[1..], i - 1);
        var k :| 0 <= k < |b[1..]| && a[1..][i - 1] == b[1..][k];
        assert a[i] == b[k + 1];
      }
    } else {
      SubsequenceAt(a, b[1..], i);
      var k :| 0 <= k < |b[1..]| && a[i] == b[1..][k];
      assert a[i] == b[k + 1];
    }
  }
}
