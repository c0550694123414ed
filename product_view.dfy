/** The pure part of the product admin view: the subcategory options derived
    from a selected category, and the `displayed` chain that narrows the
    fetched page of products by category, subcategory, name search and price. */
module ProductView {
  import opened Common
  import opened Text
  import opened Catalog

  /** The subcategory options for a selected category id: those subcategories
      whose `categoryId` is the selected one, in their original order; none
      when no category is selected. */
  function SubcategoryOptions(subs: seq<Subcategory>, cat: Option<int>): (r: seq<Subcategory>)
    ensures cat.None? ==> r == []
    ensures forall s :: s in r <==> cat.Some? && s in subs && s.categoryId == cat.value
    ensures forall s :: multiset(r)[s] == if cat.Some? && s.categoryId == cat.value then multiset(subs)[s] else 0
  {
    match cat
    case None => []
    case Some(c) =>
      var inCat := (s: Subcategory) => s.categoryId == c;
      FilterCounts(subs, inCat);
      Filter(subs, inCat)
  }

  lemma SubcategoryOptionsInOrder(subs: seq<Subcategory>, cat: Option<int>)
    ensures Subsequence(SubcategoryOptions(subs, cat), subs)
  {
    match cat
    case None =>
    case Some(c) => FilterIsSubsequence(subs, (s: Subcategory) => s.categoryId == c);
  }

  predicate MatchesCategory(p: Product, filterCat: Option<int>) {
    filterCat.None? || p.categoryId == filterCat.value
  }

  predicate MatchesSubcategory(p: Product, filterSubcat: Option<int>) {
    filterSubcat.None? || p.subcategoryId == filterSubcat.value
  }

  /** An empty search keeps everything; otherwise the trimmed, lower-cased
      query must occur in one of the lower-cased names. */
  predicate MatchesSearch(p: Product, search: string)
    ensures MatchesSearch(p, search) <==>
              search == [] || exists i: nat :: OccursAt(Lower(p.name_az), Lower(Trim(search)), i)
                                            || OccursAt(Lower(p.name_en), Lower(Trim(search)), i)
                                            || OccursAt(Lower(p.name_ru), Lower(Trim(search)), i)
  {
    AnyNameIncludesIff(p.name_az, p.name_en, p.name_ru, Lower(Trim(search)));
    search == [] || AnyNameIncludes(p.name_az, p.name_en, p.name_ru, Lower(Trim(search)))
  }

  /** A set lower bound excludes cheaper products, a set upper bound dearer ones. */
  predicate InPriceRange(p: Product, minPrice: Option<real>, maxPrice: Option<real>)
    ensures InPriceRange(p, minPrice, maxPrice) <==>
              (minPrice.None? || minPrice.value <= p.price) && (maxPrice.None? || p.price <= maxPrice.value)
  {
    if minPrice.Some? && p.price < minPrice.value then false
    else if maxPrice.Some? && p.price > maxPrice.value then false
    else true
  }

  /** The client-side filters in the order the view applies them. */
  function Displayed(products: seq<Product>, filterCat: Option<int>, filterSubcat: Option<int>,
                     search: string, minPrice: Option<real>, maxPrice: Option<real>): (d: seq<Product>)
    ensures |d| <= |products|
    ensures forall p :: p in d <==> p in products && MatchesCategory(p, filterCat) && MatchesSubcategory(p, filterSubcat)
                                    && MatchesSearch(p, search) && InPriceRange(p, minPrice, maxPrice)
  {
    var byCat := Filter(products, (p: Product) => MatchesCategory(p, filterCat));
    var bySubcat := Filter(byCat, (p: Product) => MatchesSubcategory(p, filterSubcat));
    var bySearch := Filter(bySubcat, (p: Product) => MatchesSearch(p, search));
    Filter(bySearch, (p: Product) => InPriceRange(p, minPrice, maxPrice))
  }

  /** The conjunction of the four filters. */
  predicate Kept(p: Product, filterCat: Option<int>, filterSubcat: Option<int>,
                 search: string, minPrice: Option<real>, maxPrice: Option<real>) {
    MatchesCategory(p, filterCat) && MatchesSubcategory(p, filterSubcat)
    && MatchesSearch(p, search) && InPriceRange(p, minPrice, maxPrice)
  }

  /** The chain of four filters is a single filter by `Kept`. */
  lemma DisplayedIsOneFilter(products: seq<Product>, filterCat: Option<int>, filterSubcat: Option<int>,
                             search: string, minPrice: Option<real>, maxPrice: Option<real>)
    ensures Displayed(products, filterCat, filterSubcat, search, minPrice, maxPrice)
            == Filter(products, (p: Product) => Kept(p, filterCat, filterSubcat, search, minPrice, maxPrice))
  {
    var c := (p: Product) => MatchesCategory(p, filterCat);
    var cs := (p: Product) => MatchesCategory(p, filterCat) && MatchesSubcategory(p, filterSubcat);
    var csq := (p: Product) => cs(p) && MatchesSearch(p, search);
    var all := (p: Product) => Kept(p, filterCat, filterSubcat, search, minPrice, maxPrice);
    FilterFuse(products, c, (p: Product) => MatchesSubcategory(p, filterSubcat), cs);
    FilterFuse(products, cs, (p: Product) => MatchesSearch(p, search), csq);
    FilterFuse(products, csq, (p: Product) => InPriceRange(p, minPrice, maxPrice), all);
  }

  /** `displayed` is an order-preserving subsequence of the fetched page that
      holds a product iff it passes all four filters, with all its copies. */
  lemma DisplayedSpec(products: seq<Product>, filterCat: Option<int>, filterSubcat: Option<int>,
                      search: string, minPrice: Option<real>, maxPrice: Option<real>)
    ensures var d := Displayed(products, filterCat, filterSubcat, search, minPrice, maxPrice);
            && Subsequence(d, products)
            && (forall p :: p in d <==> p in products && Kept(p, filterCat, filterSubcat, search, minPrice, maxPrice))
            && (forall p :: multiset(d)[p] == if Kept(p, filterCat, filterSubcat, search, minPrice, maxPrice)
                                                then multiset(products)[p] else 0)
  {
    var all := (p: Product) => Kept(p, filterCat, filterSubcat, search, minPrice, maxPrice);
    DisplayedIsOneFilter(products, filterCat, filterSubcat, search, minPrice, maxPrice);
    FilterIsSubsequence(products, all);
    FilterCounts(products, all);
  }

  /** With no filter set at all the whole fetched page is displayed. */
  lemma NoFiltersDisplayAll(products: seq<Product>)
    ensures Displayed(products, None, None, "", None, None) == products
  {
    var all := (p: Product) => Kept(p, None, None, "", None, None);
    DisplayedIsOneFilter(products, None, None, "", None, None);
    FilterAll(products, all);
  }

  /** A query made only of white space trims to the empty string, which every
      name includes, so it keeps every product. */
  lemma BlankSearchKeepsAll(p: Product, search: string)
    requires forall i :: 0 <= i < |search| ==> IsSpace(search[i])
    ensures MatchesSearch(p, search)
  {
    BlankTrimsAway(search);
    IncludesEmpty(Lower(p.name_az));
  }

  lemma {:induction false} BlankTrimsAway(s: string)
    requires forall i :: 0 <= i < |s| ==> IsSpace(s[i])
    ensures TrimStart(s) == [] && Trim(s) == []
  {
    if s != [] {
      BlankTrimsAway(s[1..]);
    }
  }

  /** The query is matched regardless of the case of its ASCII letters. */
  lemma SearchIgnoresQueryCase(p: Product, search: string)
    ensures MatchesSearch(p, search) == MatchesSearch(p, Lower(search))
  {
    LowerTrimCommute(search);
  }

  /** Lower-casing does not touch white space, so it commutes with trimming. */
  lemma LowerTrimCommute(s: string)
    ensures Lower(Trim(Lower(s))) == Lower(Trim(s))
  {
    LowerStart(s);
    LowerEnd(TrimStart(s));
    LowerIdempotent(Trim(s));
  }

  lemma LowerIdempotent(s: string)
    ensures Lower(Lower(s)) == Lower(s)
  {
  }

  lemma {:induction false} LowerStart(s: string)
    ensures TrimStart(Lower(s)) == Lower(TrimStart(s))
  {
    if s != [] {
      assert Lower(s)[0] == LowerChar(s[0]);
      assert IsSpace(LowerChar(s[0])) == IsSpace(s[0]);
      assert Lower(s)[1..] == Lower(s[1..]);
      LowerStart(s[1..]);
    }
  }

  lemma {:induction false} LowerEnd(s: string)
    ensures TrimEnd(Lower(s)) == Lower(TrimEnd(s))
  {
    if s != [] {
      assert Lower(s)[|s| - 1] == LowerChar(s[|s| - 1]);
      assert IsSpace(LowerChar(s[|s| - 1])) == IsSpace(s[|s| - 1]);
      assert Lower(s)[..|s| - 1] == Lower(s[..|s| - 1]);
      LowerEnd(s[..|s| - 1]);
    }
  }

  /** Lower and upper bounds set the wrong way round display nothing. */
  lemma CrossedBoundsKeepNothing(p: Product, lo: real, hi: real)
    requires hi < lo
    ensures !InPriceRange(p, Some(lo), Some(hi))
  {
  }

  /** Prices 5, 12 and 20 with bounds 10 to 15 keep only the product priced 12. */
  lemma PriceRangeExample(a: Product, b: Product, c: Product)
    requires a.price == 5.0 && b.price == 12.0 && c.price == 20.0
    ensures Filter([a, b, c], (p: Product) => InPriceRange(p, Some(10.0), Some(15.0))) == [b]
  {
    var keep := (p: Product) => InPriceRange(p, Some(10.0), Some(15.0));
    assert [a, b, c][1..] == [b, c];
    assert [b, c][1..] == [c];
    assert Filter([c], keep) == [];
  }
}
