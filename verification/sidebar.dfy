/** The navigation sidebar: which menu items a user sees, which one is
  * active, which submenu is open and what a click does. */
module Sidebar {
  import opened JsValues
  import opened ClientLists

  /** A menu entry: its title, an optional path, its children (none when
    * absent) and an optional permission. */
  datatype MenuItem = MenuItem(title: string, path: Option<string>, children: seq<MenuItem>, permission: Option<string>)

  /** `hasPermission`: an item without a permission (or with an empty one)
    * is for everyone; otherwise the user must hold it, and without a user
    * or a permission list nobody does. */
  predicate HasPermission(user: Option<User>, permission: Option<string>)
  {
    permission.None? || permission.value == "" || Includes(user, permission.value) == Some(true)
  }

  lemma HasPermissionMeans(user: Option<User>, p: string)
    requires p != ""
    ensures HasPermission(user, Some(p)) <==>
      user.Some? && user.value.permissions.Some? && p in user.value.permissions.value
  {
  }

  /** A rendered entry: the item it shows, whether it is highlighted as the
    * current page, whether it has a submenu and whether that submenu is
    * open, and its rendered children. */
  datatype Rendered = Rendered(item: MenuItem, active: bool, expandable: bool, expanded: bool, children: seq<Rendered>)

  /** The items of a rendered list. */
  function ItemsOf(rs: seq<Rendered>): (items: seq<MenuItem>)
    ensures |items| == |rs|
    ensures forall k :: 0 <= k < |rs| ==> items[k] == rs[k].item
  {
    seq(|rs|, k requires 0 <= k < |rs| => rs[k].item)
  }

  /** The items a user may see, in order. */
  function Permitted(items: seq<MenuItem>, user: Option<User>): (r: seq<MenuItem>)
    ensures forall x :: x in r <==> x in items && HasPermission(user, x.permission)
    ensures Subsequence(r, items)
  {
    if items == [] then []
    else
      var rest := Permitted(items[1..], user);
      assert forall x :: x in items <==> x == items[0] || x in items[1..];
      if HasPermission(user, items[0].permission) then
        assert ([items[0]] + rest)[1..] == rest;
        [items[0]] + rest
      else
        assert rest == [] || Subsequence(rest, items[1..]);
        rest
  }

  /** `renderMenuItem`: nothing for an item the user may not see; otherwise
    * the entry, active when its path is the current one, with its children
    * rendered the same way. */
  function Render(item: MenuItem, user: Option<User>, pathname: string, openSubmenu: Option<string>): (r: Option<Rendered>)
    ensures r.None? <==> !HasPermission(user, item.permission)
    ensures r.Some? ==> r.value.item == item
    ensures r.Some? ==> (r.value.active <==> item.path == Some(pathname))
    ensures r.Some? ==> (r.value.expandable <==> |item.children| > 0)
    ensures r.Some? ==> (r.value.expanded <==> openSubmenu == Some(item.title))
    ensures r.Some? ==> ItemsOf(r.value.children) == Permitted(item.children, user)
    decreases item, 1
  {
    if !HasPermission(user, item.permission) then None
    else
      Some(Rendered(item, item.path == Some(pathname), |item.children| > 0, openSubmenu == Some(item.title),
                    RenderChildren(item, 0, user, pathname, openSubmenu)))
  }

  /** `item.children?.map(child => renderMenuItem(child))` from the `i`-th
    * child on, the items rendering nothing dropped. */
  function RenderChildren(parent: MenuItem, i: nat, user: Option<User>, pathname: string, openSubmenu: Option<string>): (rs: seq<Rendered>)
    requires i <= |parent.children|
    ensures ItemsOf(rs) == Permitted(parent.children[i..], user)
    decreases parent, 0, |parent.children| - i
  {
    if i == |parent.children| then []
    else
      var child := parent.children[i];
      var rest := RenderChildren(parent, i + 1, user, pathname, openSubmenu);
      assert parent.children[i..][1..] == parent.children[i + 1..];
      PermittedCons(parent.children[i..], user);
      match Render(child, user, pathname, openSubmenu)
      case None => rest
      case Some(r) =>
        assert ItemsOf([r] + rest) == [child] + ItemsOf(rest);
        [r] + rest
  }

  /** A user with no user object sees only the items that need no
    * permission, at every depth of the menu. */
  lemma {:induction false} NoUserSeesOnlyOpenItems(item: MenuItem, pathname: string, openSubmenu: Option<string>)
    requires HasPermission(None, item.permission)
    ensures item.permission.None? || item.permission.value == ""
    ensures forall x :: x in ItemsOf(Render(item, None, pathname, openSubmenu).value.children) ==>
      x.permission.None? || x.permission.value == ""
  {
  }

  /** The whole menu: `menuItems.map(item => renderMenuItem(item))`, the
    * items rendering nothing dropped. */
  function RenderMenu(items: seq<MenuItem>, user: Option<User>, pathname: string, openSubmenu: Option<string>): (rs: seq<Rendered>)
    ensures ItemsOf(rs) == Permitted(items, user)
  {
    if items == [] then []
    else
      var rest := RenderMenu(items[1..], user, pathname, openSubmenu);
      PermittedCons(items, user);
      match Render(items[0], user, pathname, openSubmenu)
      case None => rest
      case Some(r) =>
        assert ItemsOf([r] + rest) == [items[0]] + ItemsOf(rest);
        [r] + rest
  }

  /** `Permitted` of a non-empty list, by its first item. */
  lemma PermittedCons(items: seq<MenuItem>, user: Option<User>)
    requires items != []
    ensures HasPermission(user, items[0].permission) ==>
      Permitted(items, user) == [items[0]] + Permitted(items[1..], user)
    ensures !HasPermission(user, items[0].permission) ==>
      Permitted(items, user) == Permitted(items[1..], user)
  {
  }

  /** A leaf of the menu with a path and no permission. */
  function Page(title: string, path: string): MenuItem
  {
    MenuItem(title, Some(path), [], None)
  }

  /** The settings submenu: three pages, each behind its own permission. */
  const SettingsPages := [
    MenuItem("إدارة المستخدمين", Some("/settings/users"), [], Some("manage_users")),
    MenuItem("إدارة الثوابت", Some("/settings/constants"), [], Some("manage_constants")),
    MenuItem("إدارة المحطات", Some("/settings/stations"), [], Some("manage_stations"))
  ]

  const Settings := MenuItem("الإعدادات", None, SettingsPages, None)

  /** Each settings page asks for a permission. */
  predicate Guarded(items: seq<MenuItem>)
  {
    forall i :: 0 <= i < |items| ==> items[i].permission.Some? && items[i].permission.value != ""
  }

  lemma SettingsAreGuarded()
    ensures Guarded(SettingsPages)
  {
    assert SettingsPages[0].permission.value == "manage_users";
    assert SettingsPages[1].permission.value == "manage_constants";
    assert SettingsPages[2].permission.value == "manage_stations";
  }

  /** The seven pages of `menuItems` open to everyone. */
  const Pages := [
    Page("لوحة التحكم", "/dashboard"),
    Page("إدارة المركبات", "/vehicles"),
    Page("إدارة المولدات", "/generators"),
    Page("حركات الوقود", "/fuel-logs"),
    Page("إدارة الفواتير", "/invoices"),
    Page("مراقبة المخزون", "/inventory"),
    Page("التقارير", "/reports")
  ]

  /** `menuItems`: the seven pages, then the settings submenu. */
  const MenuItems := Pages + [Settings]

  /** No item of the list asks for a permission. */
  predicate OpenToAll(items: seq<MenuItem>)
  {
    forall i :: 0 <= i < |items| ==> items[i].permission.None?
  }

  lemma MenuIsOpenToAll()
    ensures OpenToAll(MenuItems)
  {
    assert OpenToAll(Pages);
  }

  /** When every item may be seen, all of them are. */
  lemma {:induction false} PermittedAll(items: seq<MenuItem>, user: Option<User>)
    requires forall i :: 0 <= i < |items| ==> HasPermission(user, items[i].permission)
    ensures Permitted(items, user) == items
  {
    if items != [] {
      assert forall i :: 1 <= i < |items| ==> items[1..][i - 1] == items[i];
      PermittedAll(items[1..], user);
      assert items == [items[0]] + items[1..];
    }
  }

  /** When no item may be seen, none is. */
  lemma {:induction false} PermittedNone(items: seq<MenuItem>, user: Option<User>)
    requires forall i :: 0 <= i < |items| ==> !HasPermission(user, items[i].permission)
    ensures Permitted(items, user) == []
  {
    if items != [] {
      assert forall i :: 1 <= i < |items| ==> items[1..][i - 1] == items[i];
      PermittedNone(items[1..], user);
    }
  }

  /** Without a user every top-level entry is listed, the settings entry
    * included, since none of them asks for a permission. */
  lemma NoUserSeesTopLevel()
    ensures Permitted(MenuItems, None) == MenuItems
  {
    MenuIsOpenToAll();
    PermittedAll(MenuItems, None);
  }

  /** Without a user the settings submenu is empty, though its entry is
    * listed and can still be opened. */
  lemma SettingsEmptyWithoutUser(pathname: string, openSubmenu: Option<string>)
    ensures Render(Settings, None, pathname, openSubmenu).Some?
    ensures Render(Settings, None, pathname, openSubmenu).value.expandable
    ensures Render(Settings, None, pathname, openSubmenu).value.children == []
  {
    SettingsAreGuarded();
    PermittedNone(SettingsPages, None);
  }

  /** The three settings permissions. */
  predicate Administers(user: User)
  {
    user.permissions.Some? &&
    "manage_users" in user.permissions.value &&
    "manage_constants" in user.permissions.value &&
    "manage_stations" in user.permissions.value
  }

  lemma AdministratorMaySeeSettings(user: User)
    requires Administers(user)
    ensures forall i :: 0 <= i < |SettingsPages| ==> HasPermission(Some(user), SettingsPages[i].permission)
  {
    forall i | 0 <= i < |SettingsPages|
      ensures HasPermission(Some(user), SettingsPages[i].permission)
    {
      if i == 0 {
        assert SettingsPages[0].permission == Some("manage_users");
      } else if i == 1 {
        assert SettingsPages[1].permission == Some("manage_constants");
      } else {
        assert SettingsPages[2].permission == Some("manage_stations");
      }
    }
  }

  /** A user holding the three settings permissions sees the whole settings
    * submenu. */
  lemma AdministratorSeesSettings(user: User, pathname: string, openSubmenu: Option<string>)
    requires Administers(user)
    ensures ItemsOf(Render(Settings, Some(user), pathname, openSubmenu).value.children) == SettingsPages
  {
    AdministratorMaySeeSettings(user);
    PermittedAll(SettingsPages, Some(user));
  }

  /** The open submenu after `handleSubmenuToggle(title)`: closed if it was
    * the open one, otherwise that one, which closes any other. */
  function Toggled(openSubmenu: Option<string>, title: string): (r: Option<string>)
    ensures openSubmenu == Some(title) ==> r.None?
    ensures openSubmenu != Some(title) ==> r == Some(title)
  {
    if openSubmenu == Some(title) then None else Some(title)
  }

  /** Toggling a submenu twice from a closed menu closes it again; toggling
    * another submenu in between leaves only the last one open. */
  lemma ToggleTwice(title: string, other: string)
    ensures Toggled(Toggled(None, title), title).None?
    ensures title != other ==> Toggled(Toggled(None, title), other) == Some(other)
  {
  }

  /** What clicking an entry does. */
  datatype Click = ToggleSubmenu(title: string) | Navigate(path: string) | NoEffect

  /** The entry's `onClick`: an item with children toggles its submenu; a
    * leaf navigates to its path when it has a non-empty one. */
  function ClickOf(item: MenuItem): (c: Click)
    ensures |item.children| > 0 <==> c.ToggleSubmenu?
    ensures c.ToggleSubmenu? ==> c.title == item.title
    ensures c.Navigate? <==> |item.children| == 0 && item.path.Some? && item.path.value != ""
    ensures c.Navigate? ==> c.path == item.path.value
  {
    if |item.children| > 0 then ToggleSubmenu(item.title)
    else if item.path.Some? && item.path.value != "" then Navigate(item.path.value)
    else NoEffect
  }

  /** The sidebar's local state: the title of the open submenu, if any. */
  class SidebarState {
    var openSubmenu: Option<string>

    constructor ()
      ensures openSubmenu.None?
    {
      openSubmenu := None;
    }

    /** `handleSubmenuToggle(title)`. */
    method Toggle(title: string)
      modifies this
      ensures openSubmenu == Toggled(old(openSubmenu), title)
    {
      if openSubmenu == Some(title) {
        openSubmenu := None;
      } else {
        openSubmenu := Some(title);
      }
    }

    /** Clicking an entry: a submenu toggle changes the open submenu, a
      * navigation is returned, nothing else changes. */
    method OnClick(item: MenuItem) returns (navigateTo: Option<string>)
      modifies this
      ensures |item.children| > 0 ==> openSubmenu == Toggled(old(openSubmenu), item.title) && navigateTo.None?
      ensures |item.children| == 0 ==> openSubmenu == old(openSubmenu)
      ensures ClickOf(item).Navigate? <==> navigateTo.Some?
      ensures navigateTo.Some? ==> navigateTo.value == ClickOf(item).path
    {
      navigateTo := None;
      match ClickOf(item)
      case ToggleSubmenu(t) => Toggle(t);
      case Navigate(p) => navigateTo := Some(p);
      case NoEffect =>
    }
  }
}
