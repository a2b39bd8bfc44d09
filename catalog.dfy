/**
 * The product and vendor catalogs of the shipment page and their search.
 * Both catalogs hold entries with a code and a display name (`jepum_cd`/`jepum_nm`
 * for products, `vender_cd`/`vender_nm` for vendors); one filter serves both.
 */
module Catalog {
  import opened Common
  import opened TextSearch

  /** One selectable card: a product or a vendor. */
  datatype Entry = Entry(code: string, name: string)

  /**
   * The five page fields kept per catalog: the full list as loaded, the cards
   * shown, the selected code and name, and the search box text
   * (`productList`, `filteredProducts`, `selectedProduct`, `selectedProductName`,
   * `productSearchTerm`, and the same for vendors).
   */
  datatype Picker = Picker(
    list: seq<Entry>,
    filtered: seq<Entry>,
    selected: Option<string>,
    selectedName: string,
    searchTerm: string)

  /** The cards shown are always entries of the loaded list. */
  predicate ShowsOnlyLoaded(p: Picker) {
    forall e :: e in p.filtered ==> e in p.list
  }

  /**
   * The search predicate: the lower-cased name or the lower-cased code
   * includes the lower-cased keyword.
   */
  predicate Matches(e: Entry, keyword: string) {
    Includes(Lower(e.name), Lower(keyword)) || Includes(Lower(e.code), Lower(keyword))
  }

  /** `list.filter(e => Matches(e, keyword))`: the matching entries, in list order. */
  function Filter(list: seq<Entry>, keyword: string): (r: seq<Entry>)
    ensures |r| <= |list|
    ensures forall e :: e in r ==> e in list && Matches(e, keyword)
  {
    if list == [] then []
    else if Matches(list[0], keyword) then [list[0]] + Filter(list[1..], keyword)
    else Filter(list[1..], keyword)
  }

  /** An entry is in the result exactly when it is in the list and matches. */
  lemma {:induction false} FilterMembership(list: seq<Entry>, keyword: string, e: Entry)
    ensures e in Filter(list, keyword) <==> e in list && Matches(e, keyword)
  {
    if list != [] {
      FilterMembership(list[1..], keyword, e);
      assert list == [list[0]] + list[1..];
    }
  }

  /** Filtering distributes over concatenation, so the original order is kept. */
  lemma {:induction false} FilterAppend(a: seq<Entry>, b: seq<Entry>, keyword: string)
    ensures Filter(a + b, keyword) == Filter(a, keyword) + Filter(b, keyword)
  {
    if a == [] {
      assert a + b == b;
    } else {
      assert (a + b)[1..] == a[1..] + b;
      FilterAppend(a[1..], b, keyword);
    }
  }

  /** When every entry matches, the filter returns the list unchanged. */
  lemma {:induction false} FilterAllMatch(list: seq<Entry>, keyword: string)
    requires forall i :: 0 <= i < |list| ==> Matches(list[i], keyword)
    ensures Filter(list, keyword) == list
  {
    if list != [] {
      FilterAllMatch(list[1..], keyword);
    }
  }

  /** When no entry matches, the filter returns nothing. */
  lemma {:induction false} FilterNoneMatch(list: seq<Entry>, keyword: string)
    requires forall i :: 0 <= i < |list| ==> !Matches(list[i], keyword)
    ensures Filter(list, keyword) == []
  {
    if list != [] {
      FilterNoneMatch(list[1..], keyword);
    }
  }

  /** An empty keyword shows the whole catalog. */
  lemma {:induction false} FilterEmptyKeyword(list: seq<Entry>)
    ensures Filter(list, "") == list
  {
    assert forall i :: 0 <= i < |list| ==> Matches(list[i], "");
    FilterAllMatch(list, "");
  }

  /** Searching the search result again with the same keyword changes nothing. */
  lemma {:induction false} FilterIdempotent(list: seq<Entry>, keyword: string)
    ensures Filter(Filter(list, keyword), keyword) == Filter(list, keyword)
  {
    var r := Filter(list, keyword);
    forall i | 0 <= i < |r| ensures Matches(r[i], keyword) {
      assert r[i] in r;
    }
    FilterAllMatch(r, keyword);
  }

  /** The case of the keyword does not matter. */
  lemma {:induction false} FilterCaseInsensitive(list: seq<Entry>, keyword: string)
    ensures Filter(list, Lower(keyword)) == Filter(list, keyword)
  {
    LowerIdempotent(keyword);
    if list != [] {
      FilterCaseInsensitive(list[1..], keyword);
    }
  }

  /** An entry whose name or code contains the keyword verbatim is always found. */
  lemma FilterFindsVerbatim(list: seq<Entry>, keyword: string, e: Entry)
    requires e in list
    requires Includes(e.name, keyword) || Includes(e.code, keyword)
    ensures e in Filter(list, keyword)
  {
    if Includes(e.name, keyword) {
      IncludesLowered(e.name, keyword);
    } else {
      IncludesLowered(e.code, keyword);
    }
    FilterMembership(list, keyword, e);
  }
}
