/** The in-memory purchase ledger: products with running counts and costs, and the default product. */
module Ledger {
  import opened Wrappers

  /** Standing unit price of a product created without an explicit price. */
  const DefaultUnitPrice: real := 0.99

  /** The value of IncrementProduct's cost argument that means "charge the standing unit price". */
  const UseStandingPrice: real := -1.0

  /** Default product name of a fresh ledger. */
  const InitialDefaultProduct: string := "Ginseng and Honey"

  /** One tracked product: how many were bought, what they cost in all, and the price of one
      when a purchase names no price. */
  datatype Product = Product(name: string, totalCount: int, totalCost: real, unitPrice: real)

  /** The ledger as a value, as it is saved and loaded: its products in insertion order and
      the name of the default product. */
  datatype Snapshot = Snapshot(products: seq<Product>, defaultProduct: string)

  /** The product names, in ledger order. */
  function Names(ps: seq<Product>): seq<string>
  {
    seq(|ps|, i requires 0 <= i < |ps| => ps[i].name)
  }

  /** No two products share a name. */
  ghost predicate NamesDistinct(ps: seq<Product>)
  {
    forall i, j :: 0 <= i < j < |ps| ==> ps[i].name != ps[j].name
  }

  /** The first product whose name is exactly `name` (case-sensitive), as an index. */
  function FindProduct(ps: seq<Product>, name: string): (r: Option<nat>)
    ensures r.Some? ==> r.value < |ps| && ps[r.value].name == name
    ensures r.Some? ==> forall j :: 0 <= j < r.value ==> ps[j].name != name
    ensures r.None? <==> forall j :: 0 <= j < |ps| ==> ps[j].name != name
  {
    if ps == [] then None
    else if ps[0].name == name then Some(0)
    else match FindProduct(ps[1..], name)
      case None => None
      case Some(k) => Some(k + 1)
  }

  /** Total cost over all products. */
  function SumCost(ps: seq<Product>): real
  {
    if ps == [] then 0.0 else ps[0].totalCost + SumCost(ps[1..])
  }

  /** Total count over all products. */
  function SumCount(ps: seq<Product>): int
  {
    if ps == [] then 0 else ps[0].totalCount + SumCount(ps[1..])
  }

  /** With no negative entries, each sum is nonnegative and bounds every product's own entry. */
  lemma {:induction false} SumBounds(ps: seq<Product>)
    ensures (forall j :: 0 <= j < |ps| ==> ps[j].totalCount >= 0) ==>
      SumCount(ps) >= 0 && forall j :: 0 <= j < |ps| ==> ps[j].totalCount <= SumCount(ps)
    ensures (forall j :: 0 <= j < |ps| ==> ps[j].totalCost >= 0.0) ==>
      SumCost(ps) >= 0.0 && forall j :: 0 <= j < |ps| ==> ps[j].totalCost <= SumCost(ps)
  {
    if ps != [] {
      SumBounds(ps[1..]);
      assert forall j :: 1 <= j < |ps| ==> ps[j] == ps[1..][j - 1];
    }
  }

  /** Appending a product adds its count and cost to the sums. */
  lemma {:induction false} SumsOfAppend(ps: seq<Product>, p: Product)
    ensures SumCount(ps + [p]) == SumCount(ps) + p.totalCount
    ensures SumCost(ps + [p]) == SumCost(ps) + p.totalCost
  {
    if ps == [] {
      assert ps + [p] == [p];
      assert [p][1..] == [];
    } else {
      assert (ps + [p])[1..] == ps[1..] + [p];
      SumsOfAppend(ps[1..], p);
    }
  }

  /** Replacing one product changes the sums by the difference of its count and cost. */
  lemma {:induction false} SumsOfUpdate(ps: seq<Product>, i: nat, p: Product)
    requires i < |ps|
    ensures SumCount(ps[i := p]) == SumCount(ps) - ps[i].totalCount + p.totalCount
    ensures SumCost(ps[i := p]) == SumCost(ps) - ps[i].totalCost + p.totalCost
  {
    if i == 0 {
      assert ps[i := p][1..] == ps[1..];
    } else {
      assert ps[i := p][1..] == ps[1..][i - 1 := p];
      SumsOfUpdate(ps[1..], i - 1, p);
    }
  }

  /** The unit price a purchase of `name` pays when it names no price: the product's standing
      price, or the default price for a name not yet in the ledger. */
  function StandingPrice(ps: seq<Product>, name: string): real
  {
    match FindProduct(ps, name)
    case Some(i) => ps[i].unitPrice
    case None => DefaultUnitPrice
  }

  /** The unit price a purchase pays: `cost`, unless it is the "use standing price" value. */
  function EffectivePrice(standing: real, cost: real): real
  {
    if cost == UseStandingPrice then standing else cost
  }

  /** What one purchase of `count` units of `name` adds to the total cost. */
  function Charge(ps: seq<Product>, name: string, count: int, cost: real): real
  {
    EffectivePrice(StandingPrice(ps, name), cost) * count as real
  }

  /** The products after `IncrementProduct(name, count, cost)`. An unseen name is appended with
      the count and the charge, priced at `cost` or at the default price; a known name gets the
      count and the charge added and keeps its name and its standing price. */
  function Incremented(ps: seq<Product>, name: string, count: int, cost: real): (r: seq<Product>)
    ensures FindProduct(ps, name).None? ==>
      |r| == |ps| + 1 && r[..|ps|] == ps &&
      r[|ps|] == Product(name, count, Charge(ps, name, count, cost), EffectivePrice(DefaultUnitPrice, cost))
    ensures FindProduct(ps, name).Some? ==>
      var i := FindProduct(ps, name).value;
      |r| == |ps| &&
      (forall j :: 0 <= j < |ps| && j != i ==> r[j] == ps[j]) &&
      r[i].name == ps[i].name && r[i].unitPrice == ps[i].unitPrice &&
      r[i].totalCount == ps[i].totalCount + count &&
      r[i].totalCost == ps[i].totalCost + Charge(ps, name, count, cost)
  {
    var found := FindProduct(ps, name);
    if found.None? then
      if cost == UseStandingPrice then ps + [Product(name, count, DefaultUnitPrice * count as real, DefaultUnitPrice)]
      else ps + [Product(name, count, cost * count as real, cost)]
    else
      var p := ps[found.value];
      var added := if cost == UseStandingPrice then p.unitPrice * count as real else cost * count as real;
      ps[found.value := p.(totalCost := p.totalCost + added, totalCount := p.totalCount + count)]
  }

  /** An increment adds exactly `count` to the total count and its charge to the total cost,
      whatever the sign of `count`. */
  lemma IncrementSums(ps: seq<Product>, name: string, count: int, cost: real)
    ensures SumCount(Incremented(ps, name, count, cost)) == SumCount(ps) + count
    ensures SumCost(Incremented(ps, name, count, cost)) == SumCost(ps) + Charge(ps, name, count, cost)
  {
    var r := Incremented(ps, name, count, cost);
    match FindProduct(ps, name)
    case None =>
      assert r == ps + [r[|ps|]];
      SumsOfAppend(ps, r[|ps|]);
    case Some(i) =>
      assert r == ps[i := r[i]];
      SumsOfUpdate(ps, i, r[i]);
  }

  /** Two product lists with the same names, position by position, have the same name list and
      the same lookups. */
  lemma SameNames(ps: seq<Product>, qs: seq<Product>, name: string)
    requires |ps| == |qs| && forall j :: 0 <= j < |ps| ==> ps[j].name == qs[j].name
    ensures Names(ps) == Names(qs)
    ensures FindProduct(ps, name) == FindProduct(qs, name)
  {
    var f, g := FindProduct(ps, name), FindProduct(qs, name);
    if f.Some? && g.Some? {
      assert !(f.value < g.value) && !(g.value < f.value);
    }
  }

  /** An increment keeps the order of the names and appends `name` when it was not there;
      afterwards `name` is found, and names that were distinct stay distinct. */
  lemma IncrementKeepsNames(ps: seq<Product>, name: string, count: int, cost: real)
    ensures Names(Incremented(ps, name, count, cost)) ==
            if FindProduct(ps, name).Some? then Names(ps) else Names(ps) + [name]
    ensures FindProduct(Incremented(ps, name, count, cost), name) ==
            if FindProduct(ps, name).Some? then FindProduct(ps, name) else Some(|ps|)
    ensures NamesDistinct(ps) ==> NamesDistinct(Incremented(ps, name, count, cost))
  {
    var r := Incremented(ps, name, count, cost);
    if FindProduct(ps, name).None? {
      AppendUnseenName(ps, r[|ps|]);
      assert r == ps + [r[|ps|]];
    } else {
      SameNames(ps, r, name);
    }
  }

  /** Appending a product whose name is not yet present adds its name at the end, makes it
      found at the last position, and keeps distinct names distinct. */
  lemma AppendUnseenName(ps: seq<Product>, p: Product)
    requires FindProduct(ps, p.name).None?
    ensures Names(ps + [p]) == Names(ps) + [p.name]
    ensures FindProduct(ps + [p], p.name) == Some(|ps|)
    ensures NamesDistinct(ps) ==> NamesDistinct(ps + [p])
  {
    NamesOfAppend(ps, p);
    FindAppended(ps, p);
    if NamesDistinct(ps) {
      DistinctAppend(ps, p);
    }
  }

  /** The names of `ps + [p]` are those of `ps` followed by `p`'s. */
  lemma NamesOfAppend(ps: seq<Product>, p: Product)
    ensures Names(ps + [p]) == Names(ps) + [p.name]
  {
    var r := ps + [p];
    assert forall j :: 0 <= j < |ps| ==> r[j] == ps[j];
  }

  /** Appending a product with a new name to distinct names keeps them distinct. */
  lemma DistinctAppend(ps: seq<Product>, p: Product)
    requires NamesDistinct(ps)
    requires forall j :: 0 <= j < |ps| ==> ps[j].name != p.name
    ensures NamesDistinct(ps + [p])
  {
    var r := ps + [p];
    forall i, j | 0 <= i < j < |r|
      ensures r[i].name != r[j].name
    {
      assert r[i] == ps[i];
    }
  }

  /** A name absent from `ps` is found at the end of `ps + [p]` when `p` carries it. */
  lemma {:induction false} FindAppended(ps: seq<Product>, p: Product)
    requires FindProduct(ps, p.name).None?
    ensures FindProduct(ps + [p], p.name) == Some(|ps|)
  {
    if ps == [] {
      assert [p][0].name == p.name;
    } else {
      assert ps[0].name != p.name;
      assert (ps + [p])[1..] == ps[1..] + [p];
      FindAppended(ps[1..], p);
    }
  }

  /** The products after `ChangePrice(name, price)`: the first product called `name` takes the
      new standing price; for an unknown name nothing changes. Counts and costs never change. */
  function Repriced(ps: seq<Product>, name: string, price: real): (r: seq<Product>)
    ensures |r| == |ps|
    ensures forall j :: 0 <= j < |ps| ==>
      r[j].name == ps[j].name && r[j].totalCount == ps[j].totalCount && r[j].totalCost == ps[j].totalCost
    ensures FindProduct(ps, name).None? ==> r == ps
    ensures FindProduct(ps, name).Some? ==>
      var i := FindProduct(ps, name).value;
      r[i].unitPrice == price && forall j :: 0 <= j < |ps| && j != i ==> r[j] == ps[j]
  {
    match FindProduct(ps, name)
    // the fallback product built for an unknown name is never stored
    case None => ps
    case Some(i) => ps[i := ps[i].(unitPrice := price)]
  }

  /** Repricing keeps both sums and the names, and afterwards a purchase of `name` without a
      price is charged the new price if `name` was known, and the default price if it was not. */
  lemma RepriceEffect(ps: seq<Product>, name: string, price: real)
    ensures SumCount(Repriced(ps, name, price)) == SumCount(ps)
    ensures SumCost(Repriced(ps, name, price)) == SumCost(ps)
    ensures Names(Repriced(ps, name, price)) == Names(ps)
    ensures StandingPrice(Repriced(ps, name, price), name) ==
            if FindProduct(ps, name).Some? then price else DefaultUnitPrice
  {
    var r := Repriced(ps, name, price);
    assert Names(r) == Names(ps);
    match FindProduct(ps, name)
    case None =>
    case Some(i) =>
      assert r == ps[i := r[i]];
      SumsOfUpdate(ps, i, r[i]);
      assert FindProduct(r, name) == Some(i);
  }

  /** One recorded purchase: the arguments of one IncrementProduct call. */
  datatype Purchase = Purchase(name: string, count: int, cost: real)

  /** The products after the purchases of `log`, in order. */
  function IncrementAll(ps: seq<Product>, log: seq<Purchase>): seq<Product>
    decreases |log|
  {
    if log == [] then ps
    else IncrementAll(Incremented(ps, log[0].name, log[0].count, log[0].cost), log[1..])
  }

  /** The sum of the counts of `log`. */
  function CountOf(log: seq<Purchase>): int
  {
    if log == [] then 0 else log[0].count + CountOf(log[1..])
  }

  /** The sum of the charges of `log`, each priced against the products as they stood
      when that purchase was made. */
  function ChargeOf(ps: seq<Product>, log: seq<Purchase>): real
    decreases |log|
  {
    if log == [] then 0.0
    else Charge(ps, log[0].name, log[0].count, log[0].cost) +
         ChargeOf(Incremented(ps, log[0].name, log[0].count, log[0].cost), log[1..])
  }

  /** After any run of purchases the total count has grown by the sum of their counts and the
      total cost by the sum of their charges; distinct names stay distinct. */
  lemma {:induction false} IncrementAllSums(ps: seq<Product>, log: seq<Purchase>)
    ensures SumCount(IncrementAll(ps, log)) == SumCount(ps) + CountOf(log)
    ensures SumCost(IncrementAll(ps, log)) == SumCost(ps) + ChargeOf(ps, log)
    ensures NamesDistinct(ps) ==> NamesDistinct(IncrementAll(ps, log))
    decreases |log|
  {
    if log != [] {
      var p := log[0];
      IncrementSums(ps, p.name, p.count, p.cost);
      IncrementKeepsNames(ps, p.name, p.count, p.cost);
      IncrementAllSums(Incremented(ps, p.name, p.count, p.cost), log[1..]);
    }
  }

  /** The ledger the program keeps in memory during one run. */
  class ZonaData {
    var products: seq<Product>
    var defaultProduct: string

    /** A ledger over the given products; a missing (null) list becomes the empty one. */
    constructor (products: Option<seq<Product>>)
      ensures this.products == products.GetOr([])
      ensures defaultProduct == InitialDefaultProduct
    {
      this.products := products.GetOr([]);
      defaultProduct := InitialDefaultProduct;
    }

    /** The ledger's current value. */
    function State(): Snapshot
      reads this
    {
      Snapshot(products, defaultProduct)
    }

    /** Records a purchase of `count` units of `name`, charged at `cost` or, when `cost` is -1,
        at the standing price; returns the product as it now stands. */
    method IncrementProduct(name: string, count: int, cost: real) returns (p: Product)
      modifies this
      ensures products == Incremented(old(products), name, count, cost)
      ensures defaultProduct == old(defaultProduct)
      ensures FindProduct(products, name).Some? && p == products[FindProduct(products, name).value]
      ensures SumCount(products) == SumCount(old(products)) + count
      ensures SumCost(products) == SumCost(old(products)) + Charge(old(products), name, count, cost)
      ensures NamesDistinct(old(products)) ==> NamesDistinct(products)
    {
      ghost var before := products;
      ghost var expected := Incremented(before, name, count, cost);
      assert SumCount(expected) == SumCount(before) + count &&
             SumCost(expected) == SumCost(before) + Charge(before, name, count, cost) by {
        IncrementSums(before, name, count, cost);
      }
      assert FindProduct(expected, name) == (if FindProduct(before, name).Some? then FindProduct(before, name) else Some(|before|)) &&
             (NamesDistinct(before) ==> NamesDistinct(expected)) by {
        IncrementKeepsNames(before, name, count, cost);
      }
      var found := FindProduct(products, name);
      if found.None? {
        var newProduct;
        if cost == UseStandingPrice {
          newProduct := Product(name, count, DefaultUnitPrice * count as real, DefaultUnitPrice);
        } else {
          newProduct := Product(name, count, cost * count as real, cost);
        }
        products := products + [newProduct];
        assert expected == before + [newProduct];
        return newProduct;
      }
      var i := found.value;
      var product := products[i];
      if cost == UseStandingPrice {
        product := product.(totalCost := product.totalCost + product.unitPrice * count as real);
      } else {
        product := product.(totalCost := product.totalCost + cost * count as real);
      }
      product := product.(totalCount := product.totalCount + count);
      products := products[i := product];
      p := product;
      assert expected == before[i := product] by {
        assert expected[i] == product;
      }
    }

    /** Sets the standing price of the product called `name`; an unknown name changes nothing. */
    method ChangePrice(name: string, price: real)
      modifies this
      ensures products == Repriced(old(products), name, price)
      ensures defaultProduct == old(defaultProduct)
      ensures FindProduct(old(products), name).None? ==> products == old(products)
    {
      var found := FindProduct(products, name);
      if found.Some? {
        var i := found.value;
        products := products[i := products[i].(unitPrice := price)];
      }
      // otherwise the program reprices a fresh product that it never adds to the list
    }
  }
}
