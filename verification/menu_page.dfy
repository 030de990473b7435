/** The menu page: the catalogue, its de-duplicated categories, and the category filter. */
module MenuPage {
  import opened Outcomes
  import opened Seqs
  import opened MenuTypes

  /** `items.map((item) => item.category)`. */
  function CategoryList(items: seq<MenuItem>): (r: seq<string>)
    ensures |r| == |items|
    ensures forall i :: 0 <= i < |items| ==> r[i] == items[i].category
  {
    seq(|items|, i requires 0 <= i < |items| => items[i].category)
  }

  /**
   First occurrences in `pre` stay first occurrences once `x` is appended, and a value new to
   `pre` first occurs at the end.
   */
  lemma FirstOrderAfterAppend(pre: seq<string>, x: string, p: seq<string>)
    requires forall y :: y in p <==> y in pre
    requires forall i, j :: 0 <= i < j < |p| ==> FirstIndex(pre, p[i]) < FirstIndex(pre, p[j])
    ensures forall i, j :: 0 <= i < j < |p| ==> FirstIndex(pre + [x], p[i]) < FirstIndex(pre + [x], p[j])
    ensures x !in p ==>
      var r := p + [x];
      forall i, j :: 0 <= i < j < |r| ==> FirstIndex(pre + [x], r[i]) < FirstIndex(pre + [x], r[j])
  {
    var s := pre + [x];
    var n := |pre|;
    assert s[..n] == pre;
    forall i | 0 <= i < |p|
      ensures FirstIndex(s, p[i]) == FirstIndex(pre, p[i]) < n
    {
      FirstIndexInPrefix(s, n, p[i]);
    }
    if x !in p {
      assert FirstIndex(s, x) == n;
      var r := p + [x];
      assert forall i :: 0 <= i < |p| ==> r[i] == p[i];
      assert r[|p|] == x;
    }
  }

  /** `[...new Set(s)]`: each value once, in order of first occurrence. */
  function Distinct(s: seq<string>): (r: seq<string>)
    ensures NoDup(r)
    ensures forall x :: x in r <==> x in s
    ensures forall i, j :: 0 <= i < j < |r| ==> FirstIndex(s, r[i]) < FirstIndex(s, r[j])
    decreases |s|
  {
    if |s| == 0 then []
    else
      var n := |s| - 1;
      var p := Distinct(s[..n]);
      var x := s[n];
      assert s == s[..n] + [x];
      FirstOrderAfterAppend(s[..n], x, p);
      if x in p then p else p + [x]
  }

  /** The category buttons derived from a catalogue. */
  function Categories(items: seq<MenuItem>): (r: seq<string>)
    ensures NoDup(r)
    ensures forall c :: c in r <==> exists i :: 0 <= i < |items| && items[i].category == c
  {
    var cs := CategoryList(items);
    assert forall c :: c in cs <==> exists i :: 0 <= i < |items| && items[i].category == c by {
      forall c | c in cs ensures exists i :: 0 <= i < |items| && items[i].category == c {
        var i :| 0 <= i < |cs| && cs[i] == c;
        assert items[i].category == c;
      }
    }
    Distinct(cs)
  }

  /** `!activeCategory`: no category chosen, or the empty one. */
  predicate NoFilter(active: Option<string>)
  {
    active.None? || active.value == ""
  }

  /** The filter callback: `item.category === activeCategory || !activeCategory`. */
  predicate Keeps(active: Option<string>, item: MenuItem)
  {
    (active.Some? && item.category == active.value) || NoFilter(active)
  }

  /** Without a filter every item passes. */
  lemma {:induction false} KeepAll(items: seq<MenuItem>, active: Option<string>)
    requires NoFilter(active)
    ensures Filter(items, (it: MenuItem) => Keeps(active, it)) == items
    decreases |items|
  {
    if |items| > 0 {
      var keep := (it: MenuItem) => Keeps(active, it);
      KeepAll(items[1..], active);
      assert keep(items[0]);
      assert Filter(items, keep) == [items[0]] + Filter(items[1..], keep);
      assert items == [items[0]] + items[1..];
    }
  }

  /**
   The cards shown: the whole catalogue without a filter, otherwise exactly the items of the
   chosen category, each as often as in the catalogue, in catalogue order.
   */
  function Shown(items: seq<MenuItem>, active: Option<string>): (r: seq<MenuItem>)
    ensures NoFilter(active) ==> r == items
    ensures !NoFilter(active) ==> forall x :: x in r <==> x in items && x.category == active.value
    ensures !NoFilter(active) ==>
      forall x :: multiset(r)[x] == if x.category == active.value then multiset(items)[x] else 0
    ensures IsSubsequence(r, items)
  {
    if NoFilter(active) then
      KeepAll(items, active);
      Filter(items, (it: MenuItem) => Keeps(active, it))
    else
      Filter(items, (it: MenuItem) => Keeps(active, it))
  }

  /** The page: the catalogue, its category buttons, and the chosen category. */
  datatype MenuState = MenuState(menuItems: seq<MenuItem>, categories: seq<string>, active: Option<string>)

  const Initial: MenuState := MenuState([], [], None)

  /** The fetch on mount: a response sets both lists; a rejection leaves the page as it was. */
  function Loaded(s: MenuState, outcome: Http<seq<MenuItem>>): (r: MenuState)
    ensures outcome.Ok? ==> r.menuItems == outcome.data && r.categories == Categories(outcome.data)
    ensures outcome.Err? ==> r == s
    ensures r.active == s.active
  {
    match outcome
    case Ok(items) => MenuState(items, Categories(items), s.active)
    case Err => s
  }

  /** Clicking "All" (`None`) or a category button. */
  function Select(s: MenuState, choice: Option<string>): (r: MenuState)
    ensures r.active == choice && r.menuItems == s.menuItems && r.categories == s.categories
  {
    s.(active := choice)
  }

  /** After loading, every category button shows at least one card. */
  lemma CategoryButtonsShowItems(s: MenuState, items: seq<MenuItem>, c: string)
    requires c in Categories(items)
    ensures |Shown(Select(Loaded(s, Ok(items)), Some(c)).menuItems, Some(c))| > 0
  {
  }
}
