/**
 * The blog list page keeps its filters in the address bar: a category, a
 * search term and a page number, read from and written to the query string,
 * and turned into the parameters of the post request.
 */
module PostsPage {
  import opened Text

  /** A query string as `URLSearchParams` holds it: name–value pairs in order, names may repeat. */
  type Params = seq<(string, string)>

  /** `params.get(name)`: the value of the first pair with that name. */
  function Get(ps: Params, name: string): (r: Option<string>)
    ensures r.Some? <==> exists i :: 0 <= i < |ps| && ps[i].0 == name
  {
    if ps == [] then None
    else if ps[0].0 == name then Some(ps[0].1)
    else
      var rest := Get(ps[1..], name);
      assert forall i :: 0 < i < |ps| ==> ps[i] == ps[1..][i - 1];
      rest
  }

  /** `params.delete(name)`: every pair with that name goes, the rest keep their order. */
  function Delete(ps: Params, name: string): (r: Params)
    ensures forall i :: 0 <= i < |r| ==> r[i].0 != name
    ensures |r| <= |ps|
  {
    if ps == [] then []
    else if ps[0].0 == name then Delete(ps[1..], name)
    else [ps[0]] + Delete(ps[1..], name)
  }

  /**
   * `params.set(name, value)`: the first pair with that name takes the value
   * and the later ones go; with no such pair, one is appended.
   */
  function Set(ps: Params, name: string, value: string): (r: Params)
    ensures |r| >= 1
  {
    if ps == [] then [(name, value)]
    else if ps[0].0 == name then [(name, value)] + Delete(ps[1..], name)
    else [ps[0]] + Set(ps[1..], name, value)
  }

  /** The number of pairs with a name. */
  function Occurrences(ps: Params, name: string): nat
  {
    if ps == [] then 0 else (if ps[0].0 == name then 1 else 0) + Occurrences(ps[1..], name)
  }

  /** After a delete the name is gone and every other name reads as before. */
  lemma {:induction false} GetAfterDelete(ps: Params, name: string, other: string)
    ensures Get(Delete(ps, name), name).None?
    ensures other != name ==> Get(Delete(ps, name), other) == Get(ps, other)
  {
    if ps != [] {
      GetAfterDelete(ps[1..], name, other);
    }
  }

  /** After a set the name reads as the new value and every other name as before. */
  lemma {:induction false} GetAfterSet(ps: Params, name: string, value: string, other: string)
    ensures Get(Set(ps, name, value), name) == Some(value)
    ensures other != name ==> Get(Set(ps, name, value), other) == Get(ps, other)
  {
    if ps != [] {
      if ps[0].0 == name {
        GetAfterDelete(ps[1..], name, other);
      } else {
        GetAfterSet(ps[1..], name, value, other);
      }
    }
  }

  lemma {:induction false} DeleteLeavesNone(ps: Params, name: string)
    ensures Occurrences(Delete(ps, name), name) == 0
  {
    if ps != [] {
      DeleteLeavesNone(ps[1..], name);
      var rest := Delete(ps[1..], name);
      if ps[0].0 != name {
        assert ([ps[0]] + rest)[1..] == rest;
      }
    }
  }

  /** After a set the name occurs exactly once, whatever repeats there were before. */
  lemma {:induction false} SetLeavesOne(ps: Params, name: string, value: string)
    ensures Occurrences(Set(ps, name, value), name) == 1
  {
    if ps == [] {
    } else if ps[0].0 == name {
      DeleteLeavesNone(ps[1..], name);
      assert ([(name, value)] + Delete(ps[1..], name))[1..] == Delete(ps[1..], name);
    } else {
      SetLeavesOne(ps[1..], name, value);
      assert ([ps[0]] + Set(ps[1..], name, value))[1..] == Set(ps[1..], name, value);
    }
  }

  lemma {:induction false} DeleteTwice(ps: Params, name: string)
    ensures Delete(Delete(ps, name), name) == Delete(ps, name)
  {
    if ps != [] {
      DeleteTwice(ps[1..], name);
      if ps[0].0 != name {
        assert ([ps[0]] + Delete(ps[1..], name))[1..] == Delete(ps[1..], name);
      }
    }
  }

  /**
   * A set disturbs nothing else: taking the name out again leaves the other
   * pairs exactly as they were, in their order.
   */
  lemma {:induction false} SetKeepsOthers(ps: Params, name: string, value: string)
    ensures Delete(Set(ps, name, value), name) == Delete(ps, name)
  {
    if ps == [] {
      assert Delete([(name, value)], name) == Delete([], name);
    } else if ps[0].0 == name {
      var rest := Delete(ps[1..], name);
      assert ([(name, value)] + rest)[1..] == rest;
      DeleteTwice(ps[1..], name);
    } else {
      SetKeepsOthers(ps[1..], name, value);
      assert ([ps[0]] + Set(ps[1..], name, value))[1..] == Set(ps[1..], name, value);
    }
  }

  /** The number of posts asked for per page. */
  const Limit: int := 9

  /** `searchParams.get('category')`. */
  function CategorySlug(ps: Params): (r: Option<string>)
    ensures r.Some? <==> exists i :: 0 <= i < |ps| && ps[i].0 == "category"
  {
    Get(ps, "category")
  }

  /** `searchParams.get('search') || ''`. */
  function SearchTerm(ps: Params): (r: string)
    ensures Get(ps, "search").Some? ==> r == Get(ps, "search").value
    ensures Get(ps, "search").None? ==> r == ""
  {
    if Get(ps, "search").Some? then Get(ps, "search").value else ""
  }

  /** `parseInt(searchParams.get('page') || '1', 10)`; None is NaN. */
  function CurrentPage(ps: Params): (r: Option<int>)
    ensures r.None? ==> Get(ps, "page").Some? && Get(ps, "page").value != ""
  {
    var p := Get(ps, "page");
    assert NatToString(1) == "1";
    ParseIntOfNatToString(1);
    ParseInt(if p.Some? && p.value != "" then p.value else "1")
  }

  /** With no page in the address, or an empty one, the first page is shown. */
  lemma PageDefaultsToFirst(ps: Params)
    requires Get(ps, "page").None? || Get(ps, "page") == Some("")
    ensures CurrentPage(ps) == Some(1)
  {
    assert NatToString(1) == "1";
    ParseIntOfNatToString(1);
  }

  /** A page number written into the address is read back as the same number. */
  lemma CurrentPageOfWritten(ps: Params, n: nat)
    requires Get(ps, "page") == Some(NatToString(n))
    ensures CurrentPage(ps) == Some(n)
  {
    ParseIntOfNatToString(n);
  }

  /** The parameters of `getPublishedPosts`; an absent filter is left out of the request. */
  datatype Query = Query(page: Option<int>, limit: int, categorySlug: Option<string>, search: Option<string>)

  /** The page's filter state, which lives in the address bar. */
  class Page {
    var params: Params

    constructor (initial: Params)
      ensures params == initial
    {
      params := initial;
    }

    /**
     * `handleCategoryChange`: a category is set, or removed when none is
     * chosen; the page goes back to the first; every other parameter stays.
     */
    method CategoryChange(slug: Option<string>)
      modifies this
      ensures slug.Some? && slug.value != "" ==>
        params == Set(Set(old(params), "category", slug.value), "page", "1")
      ensures slug.None? || slug.value == "" ==>
        params == Set(Delete(old(params), "category"), "page", "1")
      ensures CategorySlug(params) == if slug.Some? && slug.value != "" then slug else None
      ensures CurrentPage(params) == Some(1)
      ensures forall k :: k != "category" && k != "page" ==> Get(params, k) == Get(old(params), k)
    {
      var next := params;
      if slug.Some? && slug.value != "" {
        next := Set(next, "category", slug.value);
      } else {
        next := Delete(next, "category");
      }
      next := Set(next, "page", "1");
      ResetFacts(params, next, "category", slug);
      params := next;
    }

    /**
     * `handleSearch`: a search term is set, or removed when empty; the page
     * goes back to the first; every other parameter stays.
     */
    method Search(query: string)
      modifies this
      ensures query != "" ==> params == Set(Set(old(params), "search", query), "page", "1")
      ensures query == "" ==> params == Set(Delete(old(params), "search"), "page", "1")
      ensures SearchTerm(params) == query
      ensures CurrentPage(params) == Some(1)
      ensures forall k :: k != "search" && k != "page" ==> Get(params, k) == Get(old(params), k)
    {
      var next := params;
      if query != "" {
        next := Set(next, "search", query);
      } else {
        next := Delete(next, "search");
      }
      next := Set(next, "page", "1");
      ResetFacts(params, next, "search", if query != "" then Some(query) else None);
      params := next;
    }

    /** `handlePageChange`: only the page changes. */
    method PageChange(n: nat)
      modifies this
      ensures params == Set(old(params), "page", NatToString(n))
      ensures CurrentPage(params) == Some(n)
      ensures forall k :: k != "page" ==> Get(params, k) == Get(old(params), k)
    {
      params := Set(params, "page", NatToString(n));
      forall k | true
        ensures Get(params, k) == (if k == "page" then Some(NatToString(n)) else Get(old(params), k))
      {
        GetAfterSet(old(params), "page", NatToString(n), k);
      }
      CurrentPageOfWritten(params, n);
    }

    /**
     * The request parameters `fetchPosts` builds: the page and the limit
     * always, the category and the search only when they are not empty.
     */
    method FetchQuery() returns (q: Query)
      ensures q.page == CurrentPage(params) && q.limit == Limit
      ensures q.categorySlug.Some? <==> CategorySlug(params).Some? && CategorySlug(params).value != ""
      ensures q.categorySlug.Some? ==> q.categorySlug == CategorySlug(params)
      ensures q.search.Some? <==> SearchTerm(params) != ""
      ensures q.search.Some? ==> q.search.value == SearchTerm(params)
    {
      var slug := CategorySlug(params);
      var term := SearchTerm(params);
      q := Query(CurrentPage(params), Limit, None, None);
      if slug.Some? && slug.value != "" {
        q := q.(categorySlug := slug);
      }
      if term != "" {
        q := q.(search := Some(term));
      }
    }
  }

  /**
   * What the two filter handlers rely on: after `name` is set to a truthy
   * value or deleted, and the page is then set to "1", the filter reads as
   * chosen, the page as 1, and any other name as before.
   */
  lemma ResetFacts(before: Params, after: Params, name: string, chosen: Option<string>)
    requires name != "page"
    requires chosen.Some? && chosen.value != "" ==> after == Set(Set(before, name, chosen.value), "page", "1")
    requires chosen.None? || chosen.value == "" ==> after == Set(Delete(before, name), "page", "1")
    ensures Get(after, name) == if chosen.Some? && chosen.value != "" then chosen else None
    ensures Get(after, "page") == Some("1") && CurrentPage(after) == Some(1)
    ensures forall k :: k != name && k != "page" ==> Get(after, k) == Get(before, k)
  {
    var mid := if chosen.Some? && chosen.value != "" then Set(before, name, chosen.value) else Delete(before, name);
    PageReset(mid, after);
    forall k | k != "page"
      ensures Get(mid, k) == (if k == name then (if chosen.Some? && chosen.value != "" then chosen else None) else Get(before, k))
    {
      if chosen.Some? && chosen.value != "" {
        GetAfterSet(before, name, chosen.value, k);
      } else {
        GetAfterDelete(before, name, k);
      }
    }
  }

  /** Setting the page to "1" makes it read as page 1 and leaves every other name alone. */
  lemma PageReset(mid: Params, after: Params)
    requires after == Set(mid, "page", "1")
    ensures Get(after, "page") == Some("1") && CurrentPage(after) == Some(1)
    ensures forall k :: k != "page" ==> Get(after, k) == Get(mid, k)
  {
    forall k
      ensures k != "page" ==> Get(after, k) == Get(mid, k)
    {
      GetAfterSet(mid, "page", "1", k);
    }
    GetAfterSet(mid, "page", "1", "page");
    assert NatToString(1) == "1";
    ParseIntOfNatToString(1);
  }
}
