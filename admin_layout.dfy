/**
 * The admin area's layout: a role guard that sends anyone who is not an
 * admin to the unauthorized page, the side menu, and the breadcrumb label
 * of the current path.
 */
module AdminLayout {
  import opened Util
  import opened AuthSlice

  /** A menu entry; `caption` is the source's `label`, a keyword in Dafny. */
  datatype MenuItem = MenuItem(caption: string, path: string)

  const UnauthorizedPath := "/unauthorized"

  const MenuItems: seq<MenuItem> := [
    MenuItem("대시보드", "/admin"),
    MenuItem("회원 관리", "/admin/users"),
    MenuItem("판매자 관리", "/admin/sellers"),
    MenuItem("판매자 승인 관리", "/admin/sellers/approval"),
    MenuItem("상품 관리", "/admin/products"),
    MenuItem("상품 승인 관리", "/admin/products/approval"),
    MenuItem("주문 관리", "/admin/orders")
  ]

  /** The effect's navigation: `user?.userRole !== ROLES.ADMIN`. */
  function AdminGuard(user: Option<User>): (target: Option<string>)
    ensures target.None? <==> user.Some? && user.value.userRole == Admin
    ensures target.Some? ==> target.value == "/unauthorized"
  {
    if user.Some? && user.value.userRole == Admin then None else Some(UnauthorizedPath)
  }

  /** A menu item is highlighted iff its path is exactly the current path. */
  predicate IsActive(currentPath: string, item: MenuItem)
  {
    currentPath == item.path
  }

  /** `menuItems.find(m => m.path === currentPath)`. */
  function FindByPath(items: seq<MenuItem>, currentPath: string): (r: Option<nat>)
    ensures r.Some? ==> r.value < |items| && items[r.value].path == currentPath
    ensures r.Some? ==> forall j :: 0 <= j < r.value ==> items[j].path != currentPath
    ensures r.None? <==> forall j :: 0 <= j < |items| ==> items[j].path != currentPath
  {
    if items == [] then None
    else if items[0].path == currentPath then Some(0)
    else match FindByPath(items[1..], currentPath)
      case None => None
      case Some(k) => Some(k + 1)
  }

  /** `getPathLabel`: the found item's label, or '' when the path is not in the menu. */
  function GetPathLabel(currentPath: string): (pathLabel: string)
    ensures pathLabel == "" <==> forall j :: 0 <= j < |MenuItems| ==> MenuItems[j].path != currentPath
    ensures forall j :: 0 <= j < |MenuItems| && MenuItems[j].path == currentPath ==> pathLabel == MenuItems[j].caption
  {
    MenuPathsDistinct();
    match FindByPath(MenuItems, currentPath)
    case None => ""
    case Some(k) => MenuItems[k].caption
  }

  /** No two menu items share a path or a label, and no label is empty. */
  lemma MenuPathsDistinct()
    ensures forall i, j :: 0 <= i < j < |MenuItems| ==> MenuItems[i].path != MenuItems[j].path
    ensures forall i, j :: 0 <= i < j < |MenuItems| ==> MenuItems[i].caption != MenuItems[j].caption
    ensures forall i :: 0 <= i < |MenuItems| ==> MenuItems[i].caption != ""
  {
  }

  /** At most one item is active on any path, and the breadcrumb names exactly the active one. */
  lemma ActiveItemIsLabelled(currentPath: string, i: nat, j: nat)
    requires i < |MenuItems| && j < |MenuItems|
    ensures IsActive(currentPath, MenuItems[i]) && IsActive(currentPath, MenuItems[j]) ==> i == j
    ensures IsActive(currentPath, MenuItems[i]) <==> GetPathLabel(currentPath) == MenuItems[i].caption
  {
    MenuPathsDistinct();
  }

  /** A path below a menu entry does not activate it: only the exact path does. */
  lemma PrefixIsNotActive(item: MenuItem, suffix: string)
    requires suffix != ""
    ensures !IsActive(item.path + suffix, item)
  {
    assert |item.path + suffix| > |item.path|;
  }
}
