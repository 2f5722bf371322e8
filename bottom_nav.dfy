/**
 * The bottom navigation bar: which entries of the fixed navigation table a user of a given
 * type sees, and which one is highlighted for the current path.
 */
module BottomNav {
  import opened Seqs

  datatype NavItem = NavItem(caption: string, path: string, vendorOnly: bool, supplierOnly: bool)

  /** `navItems`: the entries that are not commented out, neither restricted to a role. */
  const NavItems: seq<NavItem> := [
    NavItem("Home", "/dashboard", false, false),
    NavItem("Orders", "/orders", false, false)
  ]

  /** The `filteredItems` callback. */
  predicate Visible(userType: string, item: NavItem)
  {
    !(item.vendorOnly && userType != "vendor") && !(item.supplierOnly && userType != "supplier")
  }

  /** `filteredItems` for a table of entries. */
  function FilteredItems(items: seq<NavItem>, userType: string): (r: seq<NavItem>)
  {
    Filter(items, item => Visible(userType, item))
  }

  /** An entry of the table is shown exactly when its role flags allow the user type. */
  lemma FilteredItemsIff(items: seq<NavItem>, userType: string, k: nat)
    requires k < |items|
    ensures items[k] in FilteredItems(items, userType) <==>
      && (items[k].vendorOnly ==> userType == "vendor")
      && (items[k].supplierOnly ==> userType == "supplier")
  {
  }

  /** An entry flagged for neither role is shown to everyone. */
  lemma UnflaggedAlwaysShown(items: seq<NavItem>, userType: string, k: nat)
    requires k < |items| && !items[k].vendorOnly && !items[k].supplierOnly
    ensures items[k] in FilteredItems(items, userType)
  {
  }

  /** The shown entries keep the table's order. */
  lemma FilteredItemsInOrder(items: seq<NavItem>, userType: string)
    ensures IsSubsequence(FilteredItems(items, userType), items)
  {
    FilterIsSubsequence(items, item => Visible(userType, item));
  }

  /** With the current table, every user type (a missing one included) gets Home then Orders. */
  lemma CurrentTableShowsAll(userType: string)
    ensures FilteredItems(NavItems, userType) == NavItems
    ensures |FilteredItems(NavItems, userType)| == 2
    ensures FilteredItems(NavItems, userType)[0].caption == "Home"
    ensures FilteredItems(NavItems, userType)[1].caption == "Orders"
  {
    FilterKeepsAll(NavItems, item => Visible(userType, item));
  }

  /** An entry is highlighted when the current path is its path. */
  predicate IsActive(pathname: string, item: NavItem)
  {
    pathname == item.path
  }

  /** When the table's paths are distinct, at most one shown entry is highlighted. */
  lemma AtMostOneActive(items: seq<NavItem>, userType: string, pathname: string, i: nat, j: nat)
    requires forall a, b :: 0 <= a < b < |items| ==> items[a].path != items[b].path
    requires i < |FilteredItems(items, userType)| && j < |FilteredItems(items, userType)|
    requires IsActive(pathname, FilteredItems(items, userType)[i])
    requires IsActive(pathname, FilteredItems(items, userType)[j])
    ensures i == j
  {
    var shown := FilteredItems(items, userType);
    FilteredItemsInOrder(items, userType);
    DistinctPathsSurvive(shown, items);
  }

  /** A sublist of a table with distinct paths has distinct paths. */
  lemma {:induction false} DistinctPathsSurvive(a: seq<NavItem>, b: seq<NavItem>)
    requires IsSubsequence(a, b)
    requires forall x, y :: 0 <= x < y < |b| ==> b[x].path != b[y].path
    ensures forall x, y :: 0 <= x < y < |a| ==> a[x].path != a[y].path
    decreases |b|
  {
    if a != [] {
      if a[0] == b[0] && IsSubsequence(a[1..], b[1..]) {
        DistinctPathsSurvive(a[1..], b[1..]);
        SubsequenceElements(a[1..], b[1..]);
        forall x, y | 0 <= x < y < |a| ensures a[x].path != a[y].path {
          if x == 0 {
            var k :| 0 <= k < |b[1..]| && b[1..][k] == a[y];
            assert b[k + 1] == a[y];
          } else {
            assert a[x] == a[1..][x - 1] && a[y] == a[1..][y - 1];
          }
        }
      } else {
        DistinctPathsSurvive(a, b[1..]);
      }
    }
  }
}
