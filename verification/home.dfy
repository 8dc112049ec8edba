/**
  The home page's selections from the catalogue: featured and trending
  products, the category grid and each category's picture.
 */
module Home {
  import opened Types
  import Seqs

  datatype Category = Category(id: string, name: string)

  /** The first six products, in catalogue order. The home page computes
      this selection but does not render it; only the trending products are
      shown as cards. */
  function FeaturedProducts(catalogue: seq<Product>): (r: seq<Product>)
    ensures |r| == Seqs.Min(6, |catalogue|)
    ensures forall i :: 0 <= i < |r| ==> r[i] == catalogue[i]
  {
    Seqs.Take(catalogue, 6)
  }

  const TrendingRating: real := 4.7

  function IsTrending(p: Product): bool
  {
    p.rating >= TrendingRating
  }

  /** Up to four products rated at least 4.7, in catalogue order. */
  function TrendingProducts(catalogue: seq<Product>): (r: seq<Product>)
    ensures |r| <= 4
    ensures forall i :: 0 <= i < |r| ==> r[i] in catalogue && r[i].rating >= 4.7
    ensures r <= Seqs.Filter(catalogue, IsTrending)
    ensures |r| == Seqs.Min(4, |Seqs.Filter(catalogue, IsTrending)|)
  {
    Seqs.Take(Seqs.Filter(catalogue, IsTrending), 4)
  }

  /** A catalogue made of two parts trends the first part's picks first, and
      with at most four highly rated products all of them trend. */
  lemma TrendingOrder(front: seq<Product>, back: seq<Product>)
    ensures |Seqs.Filter(front, IsTrending)| >= 4 ==> TrendingProducts(front + back) == TrendingProducts(front)
    ensures |Seqs.Filter(front, IsTrending)| <= 4 ==>
      forall p :: p in front && p.rating >= 4.7 ==> p in TrendingProducts(front)
  {
    Seqs.FilterAppend(front, back, IsTrending);
    var f := Seqs.Filter(front, IsTrending);
    if |f| >= 4 {
      assert (f + Seqs.Filter(back, IsTrending))[..4] == f[..4];
    }
  }

  /** The grid shows every category but the first, in order. */
  function CategoryGrid(categories: seq<Category>): (r: seq<Category>)
    ensures |categories| == 0 ==> r == []
    ensures |categories| > 0 ==> [categories[0]] + r == categories
  {
    if |categories| == 0 then [] else categories[1..]
  }

  const DefaultImageId: string := "1148955"

  /** The picture chosen for each known category. */
  const CategoryImages: map<string, string> := map[
    "chairs" := "586763",
    "desks" := "667838",
    "tables" := "1395967",
    "lamps" := "1112598",
    "plants" := "1005058",
    "decorations" := "1579708"]

  /** The chain of conditionals choosing a category's picture agrees with
      the table, and falls back to the default for any other id. */
  function CategoryImageId(id: string): (r: string)
    ensures id in CategoryImages ==> r == CategoryImages[id]
    ensures id !in CategoryImages ==> r == DefaultImageId
  {
    if id == "chairs" then "586763"
    else if id == "desks" then "667838"
    else if id == "tables" then "1395967"
    else if id == "lamps" then "1112598"
    else if id == "plants" then "1005058"
    else if id == "decorations" then "1579708"
    else "1148955"
  }
}
