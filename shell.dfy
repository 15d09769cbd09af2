/** The top-level model of the site (src/main.rs): the list of categories shown in
    the navigation menu, sorted by name, and whether the menu is open. */
module Shell {
  import opened Json
  import opened StringOrder

  datatype Msg = ToggleNavbar

  /** The routes of the site as declared in this revision. */
  datatype Route = Home | Secure | NotFound

  /** A link of the navigation menu: its text and its target route. */
  datatype NavLink = NavLink(text: string, target: Route)

  /** Ascending by name under Rust's string order. */
  predicate SortedByName(s: seq<(string, Json)>)
  {
    forall i, j :: 0 <= i < j < |s| ==> Le(s[i].0, s[j].0)
  }

  /** `s` holds exactly the (name, content) pairs of `data`, each once. */
  predicate Lists(s: seq<(string, Json)>, data: map<string, Json>)
  {
    multiset(s) == multiset(data.Items)
  }

  // ---------------------------------------------------------------------------
  // Building the category list

  /** Collects the pairs of a hash map in whatever order iteration yields them. */
  method CollectPairs(data: map<string, Json>) returns (s: seq<(string, Json)>)
    ensures Lists(s, data)
  {
    s := [];
    var rest := data.Items;
    while rest != {}
      invariant rest <= data.Items
      invariant multiset(s) + multiset(rest) == multiset(data.Items)
      decreases |rest|
    {
      var p :| p in rest;
      assert multiset(rest) == multiset(rest - {p}) + multiset{p};
      s := s + [p];
      rest := rest - {p};
    }
  }

  /** The state the inner loop of the insertion sort leaves: the element at `j` has
      moved down past every larger name, so the first `i + 1` pairs are sorted. */
  lemma {:induction false} InsertedSorted(s: seq<(string, Json)>, i: nat, j: nat)
    requires j <= i < |s|
    requires forall p, q :: 0 <= p < q <= i && p != j && q != j ==> Le(s[p].0, s[q].0)
    requires forall q :: j < q <= i ==> Le(s[j].0, s[q].0)
    requires j > 0 ==> Le(s[j - 1].0, s[j].0)
    ensures SortedByName(s[..i + 1])
  {
    forall p, q | 0 <= p < q <= i
      ensures Le(s[p].0, s[q].0)
    {
      if p < j - 1 && j <= q {
        LeTransitive(s[p].0, s[j - 1].0, s[j].0);
      }
      if p < j < q {
        LeTransitive(s[p].0, s[j].0, s[q].0);
      }
    }
  }

  /** Exchanges two elements of the array. */
  method Swap(a: array<(string, Json)>, i: nat, j: nat)
    requires i < j < a.Length
    modifies a
    ensures a[i] == old(a[j]) && a[j] == old(a[i])
    ensures forall k :: 0 <= k < a.Length && k != i && k != j ==> a[k] == old(a[k])
    ensures multiset(a[..]) == multiset(old(a[..]))
  {
    a[i], a[j] := a[j], a[i];
  }

  /** Moves the pair at `i` down past every larger name, one swap at a time. */
  method InsertAt(a: array<(string, Json)>, i: nat)
    requires i < a.Length
    requires SortedByName(a[..i])
    modifies a
    ensures SortedByName(a[..i + 1])
    ensures multiset(a[..]) == multiset(old(a[..]))
  {
    var j := i;
    while j > 0 && !Le(a[j - 1].0, a[j].0)
      invariant 0 <= j <= i
      invariant forall p, q :: 0 <= p < q <= i && p != j && q != j ==> Le(a[p].0, a[q].0)
      invariant forall q :: j < q <= i ==> Le(a[j].0, a[q].0)
      invariant multiset(a[..]) == multiset(old(a[..]))
    {
      LeTotal(a[j - 1].0, a[j].0);
      Swap(a, j - 1, j);
      j := j - 1;
    }
    InsertedSorted(a[..], i, j);
  }

  /** Sorts the pairs in place by name, as `sort_by_key` does. */
  method SortByName(a: array<(string, Json)>)
    modifies a
    ensures SortedByName(a[..])
    ensures multiset(a[..]) == multiset(old(a[..]))
  {
    var i := 0;
    while i < a.Length
      invariant 0 <= i <= a.Length
      invariant SortedByName(a[..i])
      invariant multiset(a[..]) == multiset(old(a[..]))
    {
      InsertAt(a, i);
      i := i + 1;
    }
    assert a[..] == a[..a.Length];
  }

  // ---------------------------------------------------------------------------
  // The model

  class HtmlModel {
    var navbarActive: bool
    var categoryData: seq<(string, Json)>

    /** Startup: the data map becomes a name-sorted list and the menu starts closed. */
    constructor (data: map<string, Json>)
      ensures !navbarActive
      ensures Lists(categoryData, data)
      ensures SortedByName(categoryData)
    {
      var pairs := CollectPairs(data);
      var a := new (string, Json)[|pairs|](i requires 0 <= i < |pairs| => pairs[i]);
      assert a[..] == pairs;
      SortByName(a);
      navbarActive := false;
      categoryData := a[..];
    }

    /** The only message toggles the menu; every update asks for a re-render. */
    method Update(msg: Msg) returns (rerender: bool)
      modifies this`navbarActive
      ensures navbarActive == !old(navbarActive)
      ensures categoryData == old(categoryData)
      ensures rerender
    {
      match msg
      case ToggleNavbar =>
        navbarActive := !navbarActive;
        rerender := true;
    }
  }

  // ---------------------------------------------------------------------------
  // What the views are built from

  /** The navigation menu: a Home link, then one link per category in list order. */
  function NavMenu(categories: seq<(string, Json)>): (links: seq<NavLink>)
    ensures |links| == |categories| + 1
    ensures links[0] == NavLink("Home", Home)
    ensures forall i :: 0 <= i < |categories| ==> links[i + 1] == NavLink(categories[i].0, Secure)
  {
    [NavLink("Home", Home)] + seq(|categories|, i requires 0 <= i < |categories| => NavLink(categories[i].0, Secure))
  }

  /** The menu button's `aria-expanded` attribute. */
  function AriaExpanded(navbarActive: bool): (v: string)
    ensures v == "true" <==> navbarActive
    ensures v == "false" <==> !navbarActive
  {
    if navbarActive then "true" else "false"
  }

  // ---------------------------------------------------------------------------
  // Properties of the category list

  /** No name occurs twice. */
  predicate NamesDistinct(s: seq<(string, Json)>)
  {
    forall i, j :: 0 <= i < j < |s| ==> s[i].0 != s[j].0
  }

  /** Each element of a list of a map's pairs is a pair of the map. */
  lemma {:induction false} ListedPairsBelong(s: seq<(string, Json)>, data: map<string, Json>)
    requires Lists(s, data)
    ensures forall i :: 0 <= i < |s| ==> s[i].0 in data && data[s[i].0] == s[i].1
  {
    forall i | 0 <= i < |s| ensures s[i].0 in data && data[s[i].0] == s[i].1 {
      assert s[i] in multiset(s);
      assert s[i] in data.Items;
    }
  }

  /** A list of a map's pairs never repeats a name. */
  lemma {:induction false} ListedNamesDistinct(s: seq<(string, Json)>, data: map<string, Json>)
    requires Lists(s, data)
    ensures NamesDistinct(s)
  {
    ListedPairsBelong(s, data);
    forall i, j | 0 <= i < j < |s| ensures s[i].0 != s[j].0 {
      if s[i].0 == s[j].0 {
        TwiceInSeq(s, i, j);
        assert false;
      }
    }
  }

  /** A list of a map's pairs names every category of the map, and has one element per category. */
  lemma {:induction false} ListedNamesComplete(s: seq<(string, Json)>, data: map<string, Json>)
    requires Lists(s, data)
    ensures |s| == |data|
    ensures forall k :: k in data ==> exists i :: 0 <= i < |s| && s[i].0 == k
  {
    assert |multiset(s)| == |s|;
    assert |data.Items| == |data|;
    forall k | k in data ensures exists i :: 0 <= i < |s| && s[i].0 == k {
      assert (k, data[k]) in data.Items;
      assert (k, data[k]) in multiset(s);
      var i :| 0 <= i < |s| && s[i] == (k, data[k]);
    }
  }

  /** An element at two positions of a sequence is counted twice by its multiset. */
  lemma {:induction false} TwiceInSeq<T>(s: seq<T>, i: nat, j: nat)
    requires i < j < |s| && s[i] == s[j]
    ensures multiset(s)[s[i]] >= 2
  {
    assert s == s[..j] + s[j..];
    assert multiset(s) == multiset(s[..j]) + multiset(s[j..]);
    assert s[i] in multiset(s[..j]);
    assert s[j] in multiset(s[j..]);
  }

  /** Two name-sorted permutations of one list with distinct names start alike. */
  lemma {:induction false} SortedHeadsEqual(s: seq<(string, Json)>, t: seq<(string, Json)>)
    requires |s| > 0
    requires multiset(s) == multiset(t)
    requires NamesDistinct(s)
    requires SortedByName(s) && SortedByName(t)
    ensures s[0] == t[0]
  {
    var x := s[0];
    assert x in multiset(t);
    var k :| 0 <= k < |t| && t[k] == x;
    var y := t[0];
    assert y in multiset(s);
    var l :| 0 <= l < |s| && s[l] == y;
    assert Le(y.0, x.0) by {
      if k > 0 { assert Le(t[0].0, t[k].0); } else { LeReflexive(x.0); }
    }
    assert Le(x.0, y.0) by {
      if l > 0 { assert Le(s[0].0, s[l].0); } else { LeReflexive(x.0); }
    }
    LeAntisymmetric(x.0, y.0);
    assert l == 0;
  }

  /** Two name-sorted permutations of one list with distinct names are equal. */
  lemma {:induction false} SortedPermutationUnique(s: seq<(string, Json)>, t: seq<(string, Json)>)
    requires multiset(s) == multiset(t)
    requires NamesDistinct(s)
    requires SortedByName(s) && SortedByName(t)
    ensures s == t
    decreases |s|
  {
    assert |s| == |multiset(s)| == |t|;
    if |s| > 0 {
      SortedHeadsEqual(s, t);
      var x := s[0];
      assert s == [x] + s[1..];
      assert t == [x] + t[1..];
      assert multiset(s[1..]) == multiset(s) - multiset{x};
      assert multiset(t[1..]) == multiset(t) - multiset{x};
      assert NamesDistinct(s[1..]) by {
        forall i, j | 0 <= i < j < |s| - 1 ensures s[1..][i].0 != s[1..][j].0 {
          assert s[1..][i] == s[i + 1] && s[1..][j] == s[j + 1];
        }
      }
      assert SortedByName(s[1..]) by {
        forall i, j | 0 <= i < j < |s| - 1 ensures Le(s[1..][i].0, s[1..][j].0) {
          assert s[1..][i] == s[i + 1] && s[1..][j] == s[j + 1];
        }
      }
      assert SortedByName(t[1..]) by {
        forall i, j | 0 <= i < j < |t| - 1 ensures Le(t[1..][i].0, t[1..][j].0) {
          assert t[1..][i] == t[i + 1] && t[1..][j] == t[j + 1];
        }
      }
      SortedPermutationUnique(s[1..], t[1..]);
    }
  }

  /** Sorting makes the list independent of the hash map's iteration order: two
      sorted lists of the same map are equal. */
  lemma {:induction false} SortedListingUnique(s: seq<(string, Json)>, t: seq<(string, Json)>, data: map<string, Json>)
    requires Lists(s, data) && Lists(t, data)
    requires SortedByName(s) && SortedByName(t)
    ensures s == t
  {
    ListedNamesDistinct(s, data);
    SortedPermutationUnique(s, t);
  }

  /** After startup the menu lists the category names in strictly ascending order. */
  lemma {:induction false} MenuAscending(s: seq<(string, Json)>, data: map<string, Json>)
    requires Lists(s, data) && SortedByName(s)
    ensures forall i, j :: 1 <= i < j < |NavMenu(s)| ==>
      Le(NavMenu(s)[i].text, NavMenu(s)[j].text) && NavMenu(s)[i].text != NavMenu(s)[j].text
  {
    ListedNamesDistinct(s, data);
    var links := NavMenu(s);
    forall i, j | 1 <= i < j < |links|
      ensures Le(links[i].text, links[j].text) && links[i].text != links[j].text
    {
      assert links[i].text == s[i - 1].0 && links[j].text == s[j - 1].0;
    }
  }

  /** After startup the menu has, after Home, one link per category of the data and
      no other. */
  lemma {:induction false} MenuComplete(s: seq<(string, Json)>, data: map<string, Json>)
    requires Lists(s, data)
    ensures |NavMenu(s)| == |data| + 1
    ensures forall i :: 1 <= i < |NavMenu(s)| ==> NavMenu(s)[i].text in data
    ensures forall k :: k in data ==> exists i :: 1 <= i < |NavMenu(s)| && NavMenu(s)[i] == NavLink(k, Secure)
  {
    ListedPairsBelong(s, data);
    ListedNamesComplete(s, data);
    var links := NavMenu(s);
    forall i | 1 <= i < |links| ensures links[i].text in data {
      assert links[i].text == s[i - 1].0;
    }
    forall k | k in data ensures exists i :: 1 <= i < |links| && links[i] == NavLink(k, Secure) {
      var i :| 0 <= i < |s| && s[i].0 == k;
      assert links[i + 1] == NavLink(k, Secure);
    }
  }

  /** Toggling twice restores the menu state and leaves the categories alone. */
  method ToggleTwice(model: HtmlModel)
    modifies model
    ensures model.navbarActive == old(model.navbarActive)
    ensures model.categoryData == old(model.categoryData)
  {
    var _ := model.Update(ToggleNavbar);
    var _ := model.Update(ToggleNavbar);
  }
}
