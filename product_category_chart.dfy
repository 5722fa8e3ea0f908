/**
 * `ProductCategoryChart` (src/components/dashboard/ProductCategoryChart.tsx):
 * products grouped by category into pie slices, each with the number of
 * products in it and their summed worth, and the loading/empty cards shown
 * instead of the chart. The accumulator is a plain `{}` object, so a
 * category named after a property every object inherits already reads as
 * present: no entry is created for it and its products reach no slice.
 */
module ProductCategoryChart {
  import opened Base

  /**
   * A product as the chart reads it. `price` and `inventory` are not fields
   * of the product type, so the worth of a product is kept abstract here: an
   * integer the caller supplies for `price * (inventory || 0)`.
   */
  datatype Product = Product(category: string, worth: int)

  /**
   * The properties every plain object inherits from `Object.prototype`; each
   * is truthy, so `!acc[category]` is false for these names.
   */
  const InheritedNames: set<string> := {
    "constructor", "__defineGetter__", "__defineSetter__", "hasOwnProperty",
    "__lookupGetter__", "__lookupSetter__", "isPrototypeOf", "propertyIsEnumerable",
    "toString", "valueOf", "__proto__", "toLocaleString"
  }

  predicate Inherited(c: string) {
    c in InheritedNames
  }

  /** One pie slice: `{ name, value, count }`. */
  datatype Slice = Slice(name: string, value: int, count: nat)

  /**
   * The own keys the accumulator gets: the distinct categories that are not
   * inherited names, in order of first occurrence (the order `Object.values`
   * gives insertion-ordered keys).
   */
  function Categories(ps: seq<Product>): (r: seq<string>)
    ensures forall i, j :: 0 <= i < j < |r| ==> r[i] != r[j]
    ensures forall i :: 0 <= i < |r| ==> !Inherited(r[i])
  {
    if ps == [] then []
    else
      var init := Categories(ps[..|ps| - 1]);
      var c := ps[|ps| - 1].category;
      if c in init || Inherited(c) then init else init + [c]
  }

  /** How many products carry a category that is not an inherited name. */
  function CountedProducts(ps: seq<Product>): nat {
    if ps == [] then 0
    else CountedProducts(ps[..|ps| - 1]) + (if Inherited(ps[|ps| - 1].category) then 0 else 1)
  }

  /** How many products carry the category. */
  function CountOf(ps: seq<Product>, c: string): nat {
    if ps == [] then 0
    else CountOf(ps[..|ps| - 1], c) + (if ps[|ps| - 1].category == c then 1 else 0)
  }

  /** The summed worth of the products carrying the category. */
  function ValueOf(ps: seq<Product>, c: string): int {
    if ps == [] then 0
    else ValueOf(ps[..|ps| - 1], c) + (if ps[|ps| - 1].category == c then ps[|ps| - 1].worth else 0)
  }

  /** The chart data: one slice per distinct category, with its count and worth. */
  function Slices(ps: seq<Product>): (r: seq<Slice>)
    ensures |r| == |Categories(ps)|
    ensures forall j :: 0 <= j < |r| ==>
              r[j] == Slice(Categories(ps)[j], ValueOf(ps, Categories(ps)[j]), CountOf(ps, Categories(ps)[j]))
  {
    var cs := Categories(ps);
    seq(|cs|, j requires 0 <= j < |cs| => Slice(cs[j], ValueOf(ps, cs[j]), CountOf(ps, cs[j])))
  }

  /** A category has a slice exactly when some product carries it and it is not an inherited name. */
  lemma {:induction false} CategoriesMembers(ps: seq<Product>, c: string)
    ensures c in Categories(ps) <==> !Inherited(c) && exists i :: 0 <= i < |ps| && ps[i].category == c
  {
    if ps != [] {
      var init := ps[..|ps| - 1];
      CategoriesMembers(init, c);
      if exists i :: 0 <= i < |init| && init[i].category == c {
        var i :| 0 <= i < |init| && init[i].category == c;
        assert ps[i].category == c;
      }
      if exists i :: 0 <= i < |ps| && ps[i].category == c {
        var i :| 0 <= i < |ps| && ps[i].category == c;
        if i < |init| {
          assert init[i].category == c;
        }
      }
    }
  }

  /** A non-inherited category that no product carries counts zero and is worth nothing. */
  lemma {:induction false} AbsentCountsZero(ps: seq<Product>, c: string)
    requires c !in Categories(ps) && !Inherited(c)
    ensures CountOf(ps, c) == 0 && ValueOf(ps, c) == 0
  {
    if ps != [] {
      var init := ps[..|ps| - 1];
      assert c !in Categories(init);
      AbsentCountsZero(init, c);
    }
  }

  /** The sum of the counts of a list of categories. */
  function SumCounts(ps: seq<Product>, cs: seq<string>): nat {
    if cs == [] then 0 else SumCounts(ps, cs[..|cs| - 1]) + CountOf(ps, cs[|cs| - 1])
  }

  /** How often a category occurs in a list of categories. */
  function Occurrences(cs: seq<string>, c: string): nat {
    if cs == [] then 0 else Occurrences(cs[..|cs| - 1], c) + (if cs[|cs| - 1] == c then 1 else 0)
  }

  /** One more product adds one to the sum exactly once per occurrence of its category. */
  lemma {:induction false} SumCountsStep(ps: seq<Product>, p: Product, cs: seq<string>)
    ensures SumCounts(ps + [p], cs) == SumCounts(ps, cs) + Occurrences(cs, p.category)
  {
    if cs != [] {
      SumCountsStep(ps, p, cs[..|cs| - 1]);
      assert (ps + [p])[..|ps + [p]| - 1] == ps;
    }
  }

  /** A sum over categories extended by one more category. */
  lemma {:induction false} SumCountsAppend(ps: seq<Product>, cs: seq<string>, c: string)
    ensures SumCounts(ps, cs + [c]) == SumCounts(ps, cs) + CountOf(ps, c)
    ensures Occurrences(cs + [c], c) == Occurrences(cs, c) + 1
  {
    assert (cs + [c])[..|cs + [c]| - 1] == cs;
  }

  /** In a list without repeats, a member occurs once. */
  lemma {:induction false} OccursOnce(cs: seq<string>, c: string)
    requires forall i, j :: 0 <= i < j < |cs| ==> cs[i] != cs[j]
    ensures Occurrences(cs, c) == if c in cs then 1 else 0
  {
    if cs != [] {
      var init := cs[..|cs| - 1];
      OccursOnce(init, c);
      if cs[|cs| - 1] == c {
        forall i | 0 <= i < |init| ensures init[i] != c {
          assert init[i] == cs[i];
        }
      }
      assert c in cs <==> c in init || cs[|cs| - 1] == c;
    }
  }

  /** The slice counts add up to the number of products whose category is not an inherited name. */
  lemma {:induction false} CountsSumToLength(ps: seq<Product>)
    ensures SumCounts(ps, Categories(ps)) == CountedProducts(ps)
  {
    if ps != [] {
      var init := ps[..|ps| - 1];
      var p := ps[|ps| - 1];
      var cs := Categories(init);
      CountsSumToLength(init);
      assert ps == init + [p];
      SumCountsStep(init, p, Categories(ps));
      if p.category in cs {
        OccursOnce(cs, p.category);
      } else if Inherited(p.category) {
        OccursOnce(cs, p.category);
      } else {
        SumCountsAppend(init, cs, p.category);
        AbsentCountsZero(init, p.category);
        OccursOnce(cs, p.category);
      }
    }
  }

  /** Every product is counted exactly when no category is an inherited name. */
  lemma {:induction false} CountedProductsAll(ps: seq<Product>)
    ensures CountedProducts(ps) <= |ps|
    ensures CountedProducts(ps) == |ps| <==> forall i :: 0 <= i < |ps| ==> !Inherited(ps[i].category)
  {
    if ps != [] {
      var init := ps[..|ps| - 1];
      CountedProductsAll(init);
      if forall i :: 0 <= i < |ps| ==> !Inherited(ps[i].category) {
        forall i | 0 <= i < |init| ensures !Inherited(init[i].category) {
          assert init[i] == ps[i];
        }
      }
      if forall i :: 0 <= i < |init| ==> !Inherited(init[i].category) {
        if !Inherited(ps[|ps| - 1].category) {
          forall i | 0 <= i < |ps| ensures !Inherited(ps[i].category) {
            if i < |init| {
              assert ps[i] == init[i];
            }
          }
        }
      }
    }
  }

  /** The sum of the slice counts. */
  function SliceCountTotal(slices: seq<Slice>): nat {
    if slices == [] then 0 else SliceCountTotal(slices[..|slices| - 1]) + slices[|slices| - 1].count
  }

  lemma {:induction false} SliceCountTotalIsSumCounts(ps: seq<Product>, cs: seq<string>, slices: seq<Slice>)
    requires |slices| == |cs|
    requires forall j :: 0 <= j < |cs| ==> slices[j].count == CountOf(ps, cs[j])
    ensures SliceCountTotal(slices) == SumCounts(ps, cs)
  {
    if cs != [] {
      SliceCountTotalIsSumCounts(ps, cs[..|cs| - 1], slices[..|slices| - 1]);
    }
  }

  /**
   * The chart's slices count every product once, except those whose category
   * is an inherited name; with no such category, the counts sum to `products.length`.
   */
  lemma SlicesCountEveryProduct(ps: seq<Product>)
    ensures SliceCountTotal(Slices(ps)) == CountedProducts(ps) <= |ps|
    ensures (forall i :: 0 <= i < |ps| ==> !Inherited(ps[i].category)) ==> SliceCountTotal(Slices(ps)) == |ps|
  {
    CountedProductsAll(ps);
    CountsSumToLength(ps);
    SliceCountTotalIsSumCounts(ps, Categories(ps), Slices(ps));
  }

  /**
   * The `reduce`: one pass over the products, creating a category's entry on
   * first sight and adding to its worth and count in place; then the own
   * entries in creation order. A category named after an inherited property
   * already reads as present, so it gets no own entry; the source's writes
   * onto that inherited property are not modelled.
   */
  method GroupByCategory(ps: seq<Product>) returns (slices: seq<Slice>)
    ensures slices == Slices(ps)
  {
    var order: seq<string> := [];
    var acc: map<string, Slice> := map[];
    var i := 0;
    while i < |ps|
      invariant 0 <= i <= |ps|
      invariant Tallies(ps[..i], order, acc)
    {
      var p := ps[i];
      ghost var order0, acc0 := order, acc;
      if !Inherited(p.category) {
        if p.category !in acc {
          acc := acc[p.category := Slice(p.category, 0, 0)];
          order := order + [p.category];
        }
        var s := acc[p.category];
        acc := acc[p.category := s.(value := s.value + p.worth, count := s.count + 1)];
      }
      TallyStep(ps[..i], p, order0, acc0, order, acc);
      assert ps[..i + 1] == ps[..i] + [p];
      i := i + 1;
    }
    assert ps[..i] == ps;
    slices := seq(|order|, j requires 0 <= j < |order| => acc[order[j]]);
  }

  /** The loop state after a prefix: the own keys in creation order, each entry holding its category's tally. */
  ghost predicate Tallies(qs: seq<Product>, order: seq<string>, acc: map<string, Slice>) {
    && order == Categories(qs)
    && acc.Keys == (set c | c in order)
    && forall c :: c in acc ==> acc[c] == Slice(c, ValueOf(qs, c), CountOf(qs, c))
  }

  /** One step of the `reduce` keeps the tallies. */
  lemma TallyStep(qs: seq<Product>, p: Product, order: seq<string>, acc: map<string, Slice>,
                  order': seq<string>, acc': map<string, Slice>)
    requires Tallies(qs, order, acc)
    requires Inherited(p.category) ==> order' == order && acc' == acc
    requires !Inherited(p.category) && p.category in acc ==>
               order' == order &&
               acc' == acc[p.category := acc[p.category].(value := acc[p.category].value + p.worth,
                                                          count := acc[p.category].count + 1)]
    requires !Inherited(p.category) && p.category !in acc ==>
               order' == order + [p.category] &&
               acc' == acc[p.category := Slice(p.category, p.worth, 1)]
    ensures Tallies(qs + [p], order', acc')
  {
    var ps := qs + [p];
    assert ps[..|ps| - 1] == qs;
    if !Inherited(p.category) && p.category !in acc {
      AbsentCountsZero(qs, p.category);
    }
    forall c | c in acc' ensures acc'[c] == Slice(c, ValueOf(ps, c), CountOf(ps, c)) {
      assert c in order';
    }
  }

  /** A product whose category is an inherited name, such as "toString", reaches no slice. */
  lemma InheritedCategoryIsDropped(worth: int)
    ensures Slices([Product("toString", worth)]) == []
    ensures SliceCountTotal(Slices([Product("toString", worth)])) == 0
  {
    var ps := [Product("toString", worth)];
    assert ps[..|ps| - 1] == [];
    assert Inherited(ps[|ps| - 1].category);
    assert Categories(ps) == [];
  }

  /** What the card shows. */
  datatype Card = Loading | NoData | Chart(slices: seq<Slice>)

  /** The loading card first, then "No product data available" for missing or empty data, else the pie. */
  function Render(isLoading: bool, products: Option<seq<Product>>): (c: Card)
    ensures c.Loading? <==> isLoading
    ensures c.NoData? <==> !isLoading && (products.None? || products.value == [])
    ensures c.Chart? <==> !isLoading && products.Some? && products.value != []
    ensures c.Chart? ==> c.slices == Slices(products.value)
    ensures c.Chart? ==>
              (|c.slices| > 0 <==> exists i :: 0 <= i < |products.value| && !Inherited(products.value[i].category))
  {
    if isLoading then Loading
    else if products.None? || products.value == [] then NoData
    else
      var ps := products.value;
      NonEmptyChart(ps);
      Chart(Slices(ps))
  }

  /** The pie has a slice exactly when some category is not an inherited name. */
  lemma NonEmptyChart(ps: seq<Product>)
    ensures |Slices(ps)| > 0 <==> exists i :: 0 <= i < |ps| && !Inherited(ps[i].category)
  {
    if exists i :: 0 <= i < |ps| && !Inherited(ps[i].category) {
      var i :| 0 <= i < |ps| && !Inherited(ps[i].category);
      CategoriesMembers(ps, ps[i].category);
    }
    if |Slices(ps)| > 0 {
      var c := Categories(ps)[0];
      CategoriesMembers(ps, c);
    }
  }
}
