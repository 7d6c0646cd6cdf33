/** The navigation sidebar (`src/components/layout/AppSidebar.tsx`): its two
    menus and the rule that decides which entries are highlighted for the
    current location. The current pathname is a parameter. */
module Sidebar {
  import opened Wrappers
  import opened Seqs
  import opened Strings
  import opened Domain

  /** `isActive(path)` for the current `pathname`: an exact match, or, for
      any path other than the root, a pathname that starts with it. The
      prefix test is on characters, not on route segments. */
  predicate IsActive(pathname: string, path: string)
    ensures IsActive(pathname, path) ==> StartsWith(pathname, path)
  {
    pathname == path || (path != "/" && StartsWith(pathname, path))
  }

  /** A path is active at itself. */
  lemma ActiveAtItself(path: string)
    ensures IsActive(path, path)
  {
  }

  /** The root entry is active at the root and nowhere else. */
  lemma RootActiveOnlyAtRoot(pathname: string)
    ensures IsActive(pathname, "/") <==> pathname == "/"
  {
  }

  /** At a pathname that extends `path`, the entry for `path` is active
      exactly when the extension is empty or `path` is not the root. */
  lemma ActiveAtExtensions(path: string, ext: string)
    ensures IsActive(path + ext, path) <==> (ext == [] || path != "/")
  {
    StartsWithConcat(path, ext);
    if path == "/" && ext != [] {
      assert path + ext != path by {
        assert |path + ext| > |path|;
      }
    }
  }

  /** Nothing other than the path itself and its extensions activates it. */
  lemma InactiveUnlessPrefix(pathname: string, path: string)
    requires !StartsWith(pathname, path)
    ensures !IsActive(pathname, path)
  {
  }

  /** The character prefix test also highlights a sibling whose name merely
      begins with the entry's name. */
  lemma SiblingPrefixIsActive()
    ensures IsActive("/business/honeycomb", "/business/honey")
    ensures !IsActive("/business", "/business/honey")
  {
    StartsWithConcat("/business/honey", "comb");
    assert "/business/honey" + "comb" == "/business/honeycomb";
  }

  /* ----------------------------------------------------------- the menus */

  datatype MenuItem = MenuItem(title: string, url: string)

  datatype BusinessItem = BusinessItem(title: string, url: string, color: string)

  /** `mainMenuItems`, in display order. */
  function MainMenuItems(): (s: seq<MenuItem>)
    ensures |s| == 8
  {
    [ MenuItem("Global Dashboard", "/"),
      MenuItem("Suppliers", "/suppliers"),
      MenuItem("Customers", "/customers"),
      MenuItem("Equipment", "/equipment"),
      MenuItem("Compliance", "/compliance"),
      MenuItem("Calendar & Events", "/calendar"),
      MenuItem("Tasks", "/tasks"),
      MenuItem("Reporting", "/reports") ]
  }

  /** `businessItems`, one per unit, in the order of `AllBusinesses`. */
  function BusinessItems(): (s: seq<BusinessItem>)
    ensures |s| == |AllBusinesses|
  {
    [ BusinessItem("Honey", "/business/honey", "text-business-honey-DEFAULT"),
      BusinessItem("Legal Weed", "/business/weed", "text-business-weed-DEFAULT"),
      BusinessItem("Fish", "/business/fish", "text-business-fish-DEFAULT"),
      BusinessItem("Exotic Mushrooms", "/business/mushrooms", "text-business-mushrooms-DEFAULT") ]
  }

  function ActiveAt(pathname: string): MenuItem -> bool {
    (m: MenuItem) => IsActive(pathname, m.url)
  }

  /** The entries of a menu highlighted at `pathname`, in menu order. */
  function ActiveItems(items: seq<MenuItem>, pathname: string): (r: seq<MenuItem>)
    ensures forall m :: m in r <==> m in items && IsActive(pathname, m.url)
  {
    Filter(items, ActiveAt(pathname))
  }

  /** At the url of any main-menu entry, that entry and no other is
      highlighted: no entry's url is a prefix of another's, and the root
      entry is excluded from prefix matching. */
  lemma MainMenuHighlightsOne(i: nat)
    requires i < |MainMenuItems()|
    ensures ActiveItems(MainMenuItems(), MainMenuItems()[i].url) == [MainMenuItems()[i]]
  {
    var items := MainMenuItems();
    var pathname := items[i].url;
    var heads := ["/", "/su", "/cu", "/eq", "/co", "/ca", "/ta", "/re"];
    assert forall k :: 1 <= k < 8 ==> |items[k].url| >= 3 && items[k].url[..3] == heads[k];
    forall j | 0 <= j < |items| && j != i
      ensures !ActiveAt(pathname)(items[j])
    {
      if j == 0 {
        assert pathname != "/";
      } else if i == 0 {
        assert |items[j].url| > |pathname|;
      } else {
        assert heads[i] != heads[j];
        StartsWithHead(pathname, items[j].url, 3);
      }
    }
    FilterOnlyOne(items, ActiveAt(pathname), i);
  }

  /* ------------------------------------------------ the highlight colour */

  /** `item.color.split('-')[2]`: the third dash-separated word of the
      colour class, or nothing when there are fewer than three (the
      template then renders the word "undefined"). */
  function ColorKey(color: string): (r: Option<string>)
    ensures r.Some? ==> '-' !in r.value
  {
    var parts := Split(color, '-');
    if |parts| > 2 then Some(parts[2]) else None
  }

  /** The class added to a highlighted business entry. */
  function HighlightClass(item: BusinessItem): string {
    "bg-business-" + ColorKey(item.color).GetOr("undefined") + "/10"
  }

  /** The colour class the sidebar gives a unit. */
  function UnitColor(key: string): string {
    "text-business-" + key + "-DEFAULT"
  }

  /** The colour key comes back out of the colour class for any key without
      a dash; a key with a dash would be cut at the dash. */
  lemma ColorKeyOfUnitColor(key: string)
    requires '-' !in key
    ensures ColorKey(UnitColor(key)) == Some(key)
  {
    var parts := ["text", "business", key, "DEFAULT"];
    assert Join(parts, '-') == UnitColor(key) by {
      assert parts[1..] == ["business", key, "DEFAULT"];
      assert parts[1..][1..] == [key, "DEFAULT"];
      assert parts[1..][1..][1..] == ["DEFAULT"];
      assert Join([key, "DEFAULT"], '-') == key + "-DEFAULT";
      assert Join(parts[1..], '-') == "business-" + key + "-DEFAULT";
    }
    SplitJoin(parts, '-');
  }

  /** With a dash inside the key, only the part before the first dash
      comes back. */
  lemma ColorKeyCutsAtDash(a: string, b: string)
    requires '-' !in a
    ensures ColorKey(UnitColor(a + "-" + b)) == Some(a)
  {
    var tail := b + "-DEFAULT";
    assert UnitColor(a + "-" + b) == "text" + ['-'] + ("business" + ['-'] + (a + ['-'] + tail));
    SplitConcat("text", '-', "business" + ['-'] + (a + ['-'] + tail));
    SplitConcat("business", '-', a + ['-'] + tail);
    SplitConcat(a, '-', tail);
  }

  /** Each business entry routes to its unit's page, and its highlight
      class names that unit's key. */
  lemma BusinessItemsMatchUnits(i: nat)
    requires i < |AllBusinesses|
    ensures BusinessItems()[i].url == "/business/" + BusinessKey(AllBusinesses[i])
    ensures BusinessItems()[i].color == UnitColor(BusinessKey(AllBusinesses[i]))
    ensures ColorKey(BusinessItems()[i].color) == Some(BusinessKey(AllBusinesses[i]))
    ensures HighlightClass(BusinessItems()[i]) == "bg-business-" + BusinessKey(AllBusinesses[i]) + "/10"
  {
    var key := BusinessKey(AllBusinesses[i]);
    assert '-' !in key;
    ColorKeyOfUnitColor(key);
  }
}
