/**
 * The side menu (`SideNav` in src/components/SideNav.tsx): which groups are
 * expanded, which item is highlighted, and what a click does.
 */
module SideNav {
  import opened Types

  /** The groups expanded when the menu mounts. */
  const InitialExpanded: seq<string> := ["Property Management"]

  /** A menu entry; an entry without a `children` list has `[]`. */
  datatype MenuItem = MenuItem(title: string, path: Option<string>, children: seq<MenuItem>)

  /** `prev.filter(item => item !== title)`. */
  function Without(xs: seq<string>, t: string): (r: seq<string>)
    ensures t !in r
    ensures forall u :: u in r ==> u in xs
  {
    if xs == [] then [] else (if xs[0] == t then [] else [xs[0]]) + Without(xs[1..], t)
  }

  /** How many times `u` occurs in `xs`. */
  function Count(xs: seq<string>, u: string): nat {
    if xs == [] then 0 else (if xs[0] == u then 1 else 0) + Count(xs[1..], u)
  }

  /** `handleExpandClick(title)`: remove every occurrence if present, else append. */
  function Toggle(xs: seq<string>, t: string): (r: seq<string>)
    ensures t !in xs ==> r == xs + [t]
    ensures t in xs ==> r == Without(xs, t)
    ensures t in r <==> t !in xs
  {
    if t in xs then Without(xs, t) else xs + [t]
  }

  /** Removing an absent title changes nothing. */
  lemma {:induction false} WithoutAbsent(xs: seq<string>, t: string)
    requires t !in xs
    ensures Without(xs, t) == xs
  {
    if xs != [] {
      WithoutAbsent(xs[1..], t);
    }
  }

  /** Filtering keeps the order of what it keeps: it splits over concatenation. */
  lemma {:induction false} WithoutConcat(a: seq<string>, b: seq<string>, t: string)
    ensures Without(a + b, t) == Without(a, t) + Without(b, t)
  {
    if a == [] {
      assert a + b == b;
    } else {
      assert (a + b)[1..] == a[1..] + b;
      WithoutConcat(a[1..], b, t);
    }
  }

  /** Filtering removes every occurrence of the title and keeps every other title as often as it was. */
  lemma {:induction false} WithoutCounts(xs: seq<string>, t: string, u: string)
    ensures Count(Without(xs, t), u) == if u == t then 0 else Count(xs, u)
  {
    if xs != [] {
      WithoutCounts(xs[1..], t, u);
      CountConcat(if xs[0] == t then [] else [xs[0]], Without(xs[1..], t), u);
    }
  }

  lemma {:induction false} CountConcat(a: seq<string>, b: seq<string>, u: string)
    ensures Count(a + b, u) == Count(a, u) + Count(b, u)
  {
    if a == [] {
      assert a + b == b;
    } else {
      assert (a + b)[1..] == a[1..] + b;
      CountConcat(a[1..], b, u);
    }
  }

  /** A toggle never changes how often any other title appears. */
  lemma ToggleKeepsOthers(xs: seq<string>, t: string, u: string)
    requires u != t
    ensures Count(Toggle(xs, t), u) == Count(xs, u)
  {
    if t in xs {
      WithoutCounts(xs, t, u);
    } else {
      CountConcat(xs, [t], u);
      assert Count([t], u) == 0;
    }
  }

  /** Toggling an absent title twice gives back the original list. */
  lemma ToggleTwiceRestores(xs: seq<string>, t: string)
    requires t !in xs
    ensures Toggle(Toggle(xs, t), t) == xs
  {
    WithoutConcat(xs, [t], t);
    WithoutAbsent(xs, t);
    assert Without([t], t) == [];
  }

  /** `location.pathname === item.path`: exact equality, so a sub-route does not highlight its parent. */
  predicate IsActive(pathname: string, item: MenuItem): (b: bool)
    ensures item.path.None? ==> !b
    ensures b ==> item.path.value == pathname
    ensures item.path == Some(pathname) ==> b
  {
    item.path == Some(pathname)
  }

  /** `item.children && item.children.length > 0`. */
  predicate HasChildren(item: MenuItem): (b: bool)
    ensures b <==> item.children != []
  {
    |item.children| > 0
  }

  /** What a click asks for: a new expanded list, or `navigate(item.path)` followed by `onClose()`. */
  datatype Click = Expand(expanded: seq<string>) | NavigateAndClose(to: Option<string>)

  /** The click handler of `renderMenuItem`. */
  function OnClick(expanded: seq<string>, item: MenuItem): (c: Click)
    ensures c.Expand? <==> HasChildren(item)
    ensures c.Expand? ==> c.expanded == Toggle(expanded, item.title)
    ensures c.Expand? ==> (item.title in c.expanded <==> item.title !in expanded)
    ensures c.Expand? ==> forall u :: u != item.title ==> Count(c.expanded, u) == Count(expanded, u)
    ensures c.NavigateAndClose? ==> c.to == item.path
  {
    if HasChildren(item) then
      var r := Toggle(expanded, item.title);
      assert forall u :: u != item.title ==> Count(r, u) == Count(expanded, u) by {
        forall u | u != item.title ensures Count(r, u) == Count(expanded, u) {
          ToggleKeepsOthers(expanded, item.title, u);
        }
      }
      Expand(r)
    else NavigateAndClose(item.path)
  }

  /** The menu mounts with only "Property Management" expanded; clicking that group collapses it, twice restores it. */
  lemma InitialExpansion(group: MenuItem)
    requires group.title == "Property Management" && HasChildren(group)
    ensures forall u :: u in InitialExpanded <==> u == "Property Management"
    ensures OnClick(InitialExpanded, group) == Expand([])
    ensures OnClick([], group) == Expand(InitialExpanded)
  {
    assert Without(InitialExpanded, "Property Management") == [];
  }

  /** After following a leaf, that leaf is the highlighted one; its parent route never is. */
  lemma NavigatedLeafIsActive(expanded: seq<string>, item: MenuItem, p: string)
    requires !HasChildren(item) && item.path == Some(p)
    ensures OnClick(expanded, item) == NavigateAndClose(Some(p))
    ensures IsActive(p, item)
    ensures !IsActive(p + "/1", item)
  {
    assert |p + "/1"| != |p|;
  }
}
