/**
 * The product page's three sections (App.tsx): featured, top rated and the
 * rest, over the products whose name matches the search term.
 */
module Sections {
  import opened Types
  import opened Text
  import Seqs
  import Sorting

  /** `p.name.toLowerCase().includes(term.toLowerCase())`. */
  predicate MatchesSearch(p: Product, term: string) {
    Contains(ToLower(p.name), ToLower(term))
  }

  /**
   * Matching ignores the case of the term, and the empty term (the initial
   * search box) matches every product.
   */
  lemma SearchIgnoresCase(p: Product, term: string)
    ensures MatchesSearch(p, term) <==> MatchesSearch(p, ToLower(term))
    ensures MatchesSearch(p, "")
  {
    assert ToLower(ToLower(term)) == ToLower(term);
    assert OccursAt(ToLower(p.name), ToLower(""), 0);
  }

  /** `products.filter(...)` with the search: the matching products, in catalogue order. */
  function SearchResults(products: seq<Product>, term: string): (r: seq<Product>)
    ensures forall p :: p in r <==> p in products && MatchesSearch(p, term)
    ensures forall p :: multiset(r)[p] == if MatchesSearch(p, term) then multiset(products)[p] else 0
  {
    Seqs.Filter(products, (p: Product) => MatchesSearch(p, term))
  }

  /** `[...products].sort((a, b) => b.rating - a.rating).slice(0, 4)`: taken from the whole catalogue. */
  function TopFour(products: seq<Product>): (r: seq<Product>)
    ensures |r| == if |products| < 4 then |products| else 4
    ensures Sorting.SortedDesc(r, (p: Product) => p.rating)
    ensures multiset(r) <= multiset(products)
  {
    var sorted := Sorting.SortDesc(products, (p: Product) => p.rating);
    var k := if |sorted| < 4 then |sorted| else 4;
    Seqs.PrefixSubMultiset(sorted, k);
    sorted[..k]
  }

  datatype ProductSections = ProductSections(featured: seq<Product>, topRated: seq<Product>, regular: seq<Product>)

  function Partition(products: seq<Product>, term: string): ProductSections {
    var filtered := SearchResults(products, term);
    var featured := Seqs.Filter(filtered, (p: Product) => p.isFeatured);
    var topRated := Seqs.Filter(TopFour(products), (p: Product) => !p.isFeatured && MatchesSearch(p, term));
    var topRatedIds := Ids(topRated);
    var regular := Seqs.Filter(filtered, (p: Product) => !p.isFeatured && p.id !in topRatedIds);
    ProductSections(featured, topRated, regular)
  }

  /** Which products each section holds. */
  lemma SectionMembers(products: seq<Product>, term: string)
    ensures var s := Partition(products, term);
            && (forall p :: p in s.featured <==> p in SearchResults(products, term) && p.isFeatured)
            && (forall p :: p in s.topRated <==> p in TopFour(products) && !p.isFeatured && MatchesSearch(p, term))
            && (forall p :: p in s.regular <==> p in SearchResults(products, term) && !p.isFeatured && p.id !in Ids(s.topRated))
  {
  }

  /** Sections built by those membership rules cannot share a product. */
  lemma DisjointByMembership(s: ProductSections)
    requires forall p :: p in s.featured ==> p.isFeatured
    requires forall p :: p in s.topRated ==> !p.isFeatured
    requires forall p :: p in s.regular ==> !p.isFeatured && p.id !in Ids(s.topRated)
    ensures forall p :: !(p in s.featured && p in s.topRated)
                     && !(p in s.featured && p in s.regular)
                     && !(p in s.topRated && p in s.regular)
  {
    forall p | p in s.topRated ensures p.id in Ids(s.topRated) {
      var i :| 0 <= i < |s.topRated| && s.topRated[i] == p;
      assert Ids(s.topRated)[i] == p.id;
    }
  }

  /** No product is shown in two sections. */
  lemma SectionsDisjoint(products: seq<Product>, term: string)
    ensures var s := Partition(products, term);
            forall p :: !(p in s.featured && p in s.topRated)
                     && !(p in s.featured && p in s.regular)
                     && !(p in s.topRated && p in s.regular)
  {
    SectionMembers(products, term);
    DisjointByMembership(Partition(products, term));
  }

  /**
   * When product ids are distinct, the three sections together hold exactly
   * the products that match the search.
   */
  lemma SectionsCoverSearch(products: seq<Product>, term: string)
    requires UniqueIds(products)
    ensures var s := Partition(products, term);
            forall p :: p in SearchResults(products, term) <==> p in s.featured || p in s.topRated || p in s.regular
  {
    var s := Partition(products, term);
    var sorted := Sorting.SortDesc(products, (p: Product) => p.rating);
    forall p | p in TopFour(products) ensures p in products {
      assert p in multiset(sorted);
    }
    forall p | p in SearchResults(products, term) && p !in s.featured && p !in s.regular
      ensures p in s.topRated
    {
      assert p.id in Ids(s.topRated);
      var i :| 0 <= i < |s.topRated| && Ids(s.topRated)[i] == p.id;
      var q := s.topRated[i];
      assert q in s.topRated;
      var a :| 0 <= a < |products| && products[a] == p;
      var b :| 0 <= b < |products| && products[b] == q;
      assert a == b;
    }
  }

  /**
   * Without distinct ids the sections can lose a product: four better-rated
   * products fill the top-rated section, one of them shares its id with a
   * fifth, and the regular section's id test then drops that fifth product,
   * which matches the (empty) search but is shown nowhere.
   */
  lemma SharedIdLosesProduct(best: seq<Product>, q: Product)
    requires |best| == 4 && Sorting.SortedDesc(best, (p: Product) => p.rating)
    requires forall k :: 0 <= k < 4 ==> !best[k].isFeatured && best[k].rating > q.rating
    requires !q.isFeatured && best[0].id == q.id
    ensures var s := Partition(best + [q], "");
            && q in SearchResults(best + [q], "")
            && q !in s.featured && q !in s.topRated && q !in s.regular
  {
    var ps := best + [q];
    assert Sorting.SortedDesc(ps, (p: Product) => p.rating);
    Sorting.SortDescOfSorted(ps, (p: Product) => p.rating);
    var top := TopFour(ps);
    assert top == best;
    SearchIgnoresCase(q, "");
    SearchIgnoresCase(best[0], "");
    SectionMembers(ps, "");
    var s := Partition(ps, "");
    assert best[0] in s.topRated;
    MemberIdListed(best[0], s.topRated);
  }

  /** The four best-rated products come from the catalogue and outrank every product left out. */
  lemma TopFourIsBestRated(products: seq<Product>)
    ensures |TopFour(products)| <= 4
    ensures forall p :: p in TopFour(products) ==> p in products
    ensures forall p, q :: p in TopFour(products) && q in products && q !in TopFour(products) ==> q.rating <= p.rating
  {
    var key := (p: Product) => p.rating;
    var sorted := Sorting.SortDesc(products, key);
    var top := TopFour(products);
    assert top == sorted[..|top|];
    forall p | p in top ensures p in products {
      assert p in multiset(top);
    }
    Sorting.PrefixOutranks(sorted, |top|, key);
    forall q | q in products ensures q in sorted {
      assert q in multiset(sorted);
    }
  }

  /**
   * Top rated holds at most four products, none featured, all matching the
   * search, and no catalogue product outside the four best rated has a
   * higher rating than any of them.
   */
  lemma TopRatedIsBestRated(products: seq<Product>, term: string)
    ensures var t := Partition(products, term).topRated;
            && |t| <= 4
            && (forall p :: p in t ==> p in products && !p.isFeatured && MatchesSearch(p, term))
            && forall p, q :: p in t && q in products && q !in TopFour(products) ==> q.rating <= p.rating
  {
    TopFourIsBestRated(products);
  }
}
