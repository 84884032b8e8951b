/**
 * The navigation links of the two header components (header/header.ts and
 * header/header-bar.component.ts), the `forEach` loop of `setActiveLink`, and the
 * browser's local storage as the headers use it for theme and language.
 */
module NavLinks {
  import opened Wrappers

  /** One entry of `navLinks`; `title` is its `label`, and a missing `hasDropdown` or `highlight` is `false`. */
  datatype NavLink = NavLink(title: string, route: string, active: bool, hasDropdown: bool, highlight: bool)

  /** The links after `setActiveLink(index)`: link `i` is active exactly when `i == index`. */
  function Activated(links: seq<NavLink>, index: int): (r: seq<NavLink>)
    ensures |r| == |links|
    ensures forall i :: 0 <= i < |r| ==> r[i] == links[i].(active := i == index)
  {
    seq(|links|, i requires 0 <= i < |links| => links[i].(active := i == index))
  }

  /** The number of active links. */
  function ActiveCount(links: seq<NavLink>): (n: nat)
    ensures n <= |links|
  {
    if links == [] then 0 else (if links[0].active then 1 else 0) + ActiveCount(links[1..])
  }

  /** Zero active links when none is active, and one when exactly the link at `index` is. */
  lemma {:induction false} ActiveCountOne(links: seq<NavLink>, index: int)
    requires forall i :: 0 <= i < |links| ==> (links[i].active <==> i == index)
    ensures ActiveCount(links) == if 0 <= index < |links| then 1 else 0
  {
    if links != [] {
      ActiveCountOne(links[1..], index - 1);
    }
  }

  /**
   * With `index` in range exactly one link is active, the one at `index`; out of
   * range none is. Titles (labels), routes and the other flags do not change.
   */
  lemma ActivatedSpec(links: seq<NavLink>, index: int)
    ensures ActiveCount(Activated(links, index)) == if 0 <= index < |links| then 1 else 0
    ensures 0 <= index < |links| ==> Activated(links, index)[index].active
    ensures forall i :: 0 <= i < |links| ==>
      var l := Activated(links, index)[i];
      l.title == links[i].title && l.route == links[i].route && l.hasDropdown == links[i].hasDropdown && l.highlight == links[i].highlight
  {
    ActiveCountOne(Activated(links, index), index);
  }

  /** The `forEach` of `setActiveLink`, one link at a time. */
  method MarkActive(links: seq<NavLink>, index: int) returns (r: seq<NavLink>)
    ensures r == Activated(links, index)
  {
    r := links;
    for i := 0 to |links|
      invariant |r| == |links|
      invariant forall k :: 0 <= k < i ==> r[k] == links[k].(active := k == index)
      invariant forall k :: i <= k < |links| ==> r[k] == links[k]
    {
      r := r[i := r[i].(active := i == index)];
    }
  }

  /** `localStorage.getItem(key)`. */
  function GetItem(storage: map<string, string>, key: string): (v: Option<string>)
    ensures v.Some? <==> key in storage
    ensures v.Some? ==> v.value == storage[key]
  {
    if key in storage then Some(storage[key]) else None
  }
}
