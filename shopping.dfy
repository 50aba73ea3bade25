/** The shop page (`src/app/shopping/page.tsx`): a cart kept as a list of
    (product id, quantity) entries with `add` and `sub`, the category list, and
    the product list filtered by category and search text and sorted by the
    chosen order. */
module Shopping {
  import opened Common
  import opened Folds

  datatype CartItem = CartItem(id: string, qty: int)

  type Cart = seq<CartItem>

  /** Some entry has the id. */
  predicate Has(c: Cart, id: string) {
    |c| > 0 && (c[0].id == id || Has(c[1..], id))
  }

  /** `cart.find(c => c.id === id)`: the first entry with the id. */
  function Find(c: Cart, id: string): (r: Option<CartItem>)
    ensures r.Some? <==> Has(c, id)
    ensures r.Some? ==> r.value in c && r.value.id == id
  {
    if |c| == 0 then None
    else if c[0].id == id then Some(c[0])
    else Find(c[1..], id)
  }

  /** `qtyOf`: the entry's quantity, or 0 without one. */
  function QtyOf(c: Cart, id: string): int {
    match Find(c, id)
    case Some(item) => item.qty
    case None => 0
  }

  /** `prev.map(p => (p.id === id ? { ...p, qty: p.qty + d } : p))`. */
  function Bump(c: Cart, id: string, d: int): (r: Cart)
    ensures |r| == |c|
    ensures forall i :: 0 <= i < |c| ==> r[i].id == c[i].id &&
                                         r[i].qty == if c[i].id == id then c[i].qty + d else c[i].qty
  {
    if |c| == 0 then []
    else [if c[0].id == id then CartItem(id, c[0].qty + d) else c[0]] + Bump(c[1..], id, d)
  }

  /** `prev.filter(p => p.id !== id)`. */
  function Remove(c: Cart, id: string): (r: Cart)
    ensures !Has(r, id)
    ensures forall x :: x in r <==> x in c && x.id != id
  {
    if |c| == 0 then []
    else if c[0].id == id then Remove(c[1..], id)
    else [c[0]] + Remove(c[1..], id)
  }

  /** `add`. */
  function Add(c: Cart, id: string): (r: Cart)
    ensures Has(c, id) ==> |r| == |c| && forall i :: 0 <= i < |c| && c[i].id != id ==> r[i] == c[i]
    ensures Has(c, id) ==> forall i :: 0 <= i < |c| && c[i].id == id ==> r[i] == CartItem(id, c[i].qty + 1)
    ensures !Has(c, id) ==> r == c + [CartItem(id, 1)]
  {
    if Find(c, id).Some? then Bump(c, id, 1) else c + [CartItem(id, 1)]
  }

  /** `sub`. */
  function Sub(c: Cart, id: string): (r: Cart)
    ensures !Has(c, id) ==> r == c
  {
    match Find(c, id)
    case None => c
    case Some(has) => if has.qty <= 1 then Remove(c, id) else Bump(c, id, -1)
  }

  /** `cartCount`: the sum of the quantities. */
  function Count(c: Cart): int {
    if |c| == 0 then 0 else c[0].qty + Count(c[1..])
  }

  /** Every id appears once and every quantity is at least 1, as `add` and
      `sub` keep it. */
  predicate WellFormed(c: Cart) {
    (forall i, j :: 0 <= i < j < |c| ==> c[i].id != c[j].id) &&
    (forall i :: 0 <= i < |c| ==> c[i].qty >= 1)
  }

  // ---------------------------------------------------------------------------
  // Helper facts.

  lemma {:induction false} CountAppend(c: Cart, x: CartItem)
    ensures Count(c + [x]) == Count(c) + x.qty
    decreases |c|
  {
    if |c| > 0 {
      assert (c + [x])[1..] == c[1..] + [x];
      CountAppend(c[1..], x);
    }
  }

  lemma HasIndex(c: Cart, id: string)
    ensures Has(c, id) <==> exists i :: 0 <= i < |c| && c[i].id == id
    decreases |c|
  {
    if |c| > 0 {
      HasIndex(c[1..], id);
      if Has(c[1..], id) {
        var i :| 0 <= i < |c[1..]| && c[1..][i].id == id;
        assert c[i + 1].id == id;
      }
      if exists i :: 0 <= i < |c| && c[i].id == id {
        var i :| 0 <= i < |c| && c[i].id == id;
        if i > 0 {
          assert c[1..][i - 1].id == id;
        }
      }
    }
  }

  lemma {:induction false} WellFormedTail(c: Cart)
    requires WellFormed(c) && |c| > 0
    ensures WellFormed(c[1..]) && !Has(c[1..], c[0].id)
  {
    forall i | 0 <= i < |c[1..]| ensures c[1..][i].id != c[0].id {
      assert c[1..][i] == c[i + 1];
    }
    HasIndex(c[1..], c[0].id);
  }

  /** With the id present once, bumping moves the count by `d`; with it
      absent, nothing changes. */
  lemma {:induction false} CountBump(c: Cart, id: string, d: int)
    requires WellFormed(c)
    ensures Count(Bump(c, id, d)) == Count(c) + (if Has(c, id) then d else 0)
    decreases |c|
  {
    if |c| > 0 {
      WellFormedTail(c);
      CountBump(c[1..], id, d);
      assert Bump(c, id, d)[1..] == Bump(c[1..], id, d);
    }
  }

  /** Removing an id takes its quantity off the count. */
  lemma {:induction false} CountRemove(c: Cart, id: string)
    requires WellFormed(c)
    ensures Count(Remove(c, id)) == Count(c) - QtyOf(c, id)
    decreases |c|
  {
    if |c| > 0 {
      WellFormedTail(c);
      CountRemove(c[1..], id);
      if c[0].id == id {
        RemoveAbsent(c[1..], id);
        QtyAbsent(c[1..], id);
      }
    }
  }

  lemma QtyAbsent(c: Cart, id: string)
    requires !Has(c, id)
    ensures QtyOf(c, id) == 0
  {
  }

  lemma {:induction false} RemoveAbsent(c: Cart, id: string)
    requires !Has(c, id)
    ensures Remove(c, id) == c
    decreases |c|
  {
    if |c| > 0 {
      RemoveAbsent(c[1..], id);
    }
  }

  lemma {:induction false} RemoveAppend(c: Cart, x: CartItem)
    ensures Remove(c + [x], x.id) == Remove(c, x.id)
    decreases |c|
  {
    if |c| == 0 {
      assert c + [x] == [x];
    } else {
      assert (c + [x])[1..] == c[1..] + [x];
      RemoveAppend(c[1..], x);
    }
  }

  lemma {:induction false} BumpBack(c: Cart, id: string, d: int)
    ensures Bump(Bump(c, id, d), id, -d) == c
    decreases |c|
  {
    if |c| > 0 {
      BumpBack(c[1..], id, d);
      assert Bump(c, id, d)[1..] == Bump(c[1..], id, d);
    }
  }

  /** Finding an id in a bumped cart finds the bumped entry. */
  lemma {:induction false} FindBump(c: Cart, id: string, k: string, d: int)
    ensures Find(Bump(c, id, d), k).Some? == Find(c, k).Some?
    ensures Find(c, k).Some? ==> Find(Bump(c, id, d), k).value.qty == Find(c, k).value.qty + (if k == id then d else 0)
    decreases |c|
  {
    if |c| > 0 {
      assert Bump(c, id, d)[1..] == Bump(c[1..], id, d);
      FindBump(c[1..], id, k, d);
    }
  }

  lemma {:induction false} FindAppend(c: Cart, x: CartItem, k: string)
    ensures Find(c + [x], k) == if Has(c, k) then Find(c, k) else if x.id == k then Some(x) else None
    decreases |c|
  {
    if |c| == 0 {
      assert c + [x] == [x];
      assert [x][1..] == [];
    } else {
      assert (c + [x])[1..] == c[1..] + [x];
      FindAppend(c[1..], x, k);
    }
  }

  lemma {:induction false} WellFormedBump(c: Cart, id: string, d: int)
    requires WellFormed(c)
    requires forall i :: 0 <= i < |c| && c[i].id == id ==> c[i].qty + d >= 1
    ensures WellFormed(Bump(c, id, d))
  {
  }

  lemma {:induction false} WellFormedRemove(c: Cart, id: string)
    requires WellFormed(c)
    ensures WellFormed(Remove(c, id))
    decreases |c|
  {
    if |c| > 0 {
      WellFormedTail(c);
      WellFormedRemove(c[1..], id);
      if c[0].id != id {
        var r := Remove(c, id);
        assert r == [c[0]] + Remove(c[1..], id);
        forall i, j | 0 <= i < j < |r| ensures r[i].id != r[j].id {
          if i == 0 {
            assert r[j] in Remove(c[1..], id);
            assert r[j] in c[1..];
            HasIndex(c[1..], c[0].id);
          }
        }
      }
    }
  }

  lemma FindIndex(c: Cart, id: string)
    requires WellFormed(c) && Has(c, id)
    ensures exists i :: 0 <= i < |c| && c[i] == Find(c, id).value
  {
  }

  // ---------------------------------------------------------------------------
  // The cart properties.

  /** `add` keeps the cart well formed, raises the count and the id's
      quantity by one, and leaves every other id's quantity alone. */
  lemma AddFacts(c: Cart, id: string, other: string)
    requires WellFormed(c)
    ensures WellFormed(Add(c, id))
    ensures Count(Add(c, id)) == Count(c) + 1
    ensures QtyOf(Add(c, id), id) == QtyOf(c, id) + 1
    ensures other != id ==> QtyOf(Add(c, id), other) == QtyOf(c, other)
  {
    if Has(c, id) {
      forall i | 0 <= i < |c| && c[i].id == id ensures c[i].qty + 1 >= 1 {
      }
      WellFormedBump(c, id, 1);
      CountBump(c, id, 1);
      FindBump(c, id, id, 1);
      FindBump(c, id, other, 1);
    } else {
      var x := CartItem(id, 1);
      HasIndex(c, id);
      assert WellFormed(c + [x]);
      CountAppend(c, x);
      FindAppend(c, x, id);
      FindAppend(c, x, other);
    }
  }

  /** `sub` keeps the cart well formed, lowers the count by one exactly when
      the id is in the cart, lowers the id's quantity (dropping the entry at
      zero) and leaves every other id's quantity alone. */
  lemma SubFacts(c: Cart, id: string, other: string)
    requires WellFormed(c)
    ensures WellFormed(Sub(c, id))
    ensures Count(Sub(c, id)) == Count(c) - (if Has(c, id) then 1 else 0)
    ensures Has(c, id) ==> QtyOf(Sub(c, id), id) == QtyOf(c, id) - 1
    ensures other != id ==> QtyOf(Sub(c, id), other) == QtyOf(c, other)
  {
    if Has(c, id) {
      if Find(c, id).value.qty <= 1 {
        SubDrops(c, id, other);
      } else {
        SubLowers(c, id, other);
      }
    }
  }

  /** `sub` of the last unit drops the entry. */
  lemma SubDrops(c: Cart, id: string, other: string)
    requires WellFormed(c) && Has(c, id) && Find(c, id).value.qty <= 1
    ensures Sub(c, id) == Remove(c, id)
    ensures WellFormed(Sub(c, id))
    ensures Count(Sub(c, id)) == Count(c) - 1
    ensures QtyOf(Sub(c, id), id) == QtyOf(c, id) - 1
    ensures other != id ==> QtyOf(Sub(c, id), other) == QtyOf(c, other)
  {
    FindIndex(c, id);
    WellFormedRemove(c, id);
    CountRemove(c, id);
    QtyAbsent(Remove(c, id), id);
    if other != id {
      FindRemove(c, id, other);
    }
  }

  /** `sub` of one of several units lowers the quantity. */
  lemma SubLowers(c: Cart, id: string, other: string)
    requires WellFormed(c) && Has(c, id) && Find(c, id).value.qty > 1
    ensures Sub(c, id) == Bump(c, id, -1)
    ensures WellFormed(Sub(c, id))
    ensures Count(Sub(c, id)) == Count(c) - 1
    ensures QtyOf(Sub(c, id), id) == QtyOf(c, id) - 1
    ensures other != id ==> QtyOf(Sub(c, id), other) == QtyOf(c, other)
  {
    forall i | 0 <= i < |c| && c[i].id == id ensures c[i].qty - 1 >= 1 {
      OnlyEntry(c, id, i);
    }
    WellFormedBump(c, id, -1);
    CountBump(c, id, -1);
    FindBump(c, id, id, -1);
    FindBump(c, id, other, -1);
  }

  /** In a well-formed cart the entry `find` returns is the only one with its
      id. */
  lemma {:induction false} OnlyEntry(c: Cart, id: string, i: nat)
    requires WellFormed(c) && i < |c| && c[i].id == id
    ensures Find(c, id) == Some(c[i])
    decreases |c|
  {
    if c[0].id != id {
      WellFormedTail(c);
      OnlyEntry(c[1..], id, i - 1);
    }
  }

  lemma {:induction false} FindRemove(c: Cart, id: string, k: string)
    requires k != id
    ensures Find(Remove(c, id), k) == Find(c, k)
    decreases |c|
  {
    if |c| > 0 {
      FindRemove(c[1..], id, k);
    }
  }

  /** Taking one back after adding one restores the cart. */
  lemma SubAddRoundTrip(c: Cart, id: string)
    requires WellFormed(c)
    ensures Sub(Add(c, id), id) == c
  {
    if Has(c, id) {
      FindBump(c, id, id, 1);
      FindIndex(c, id);
      BumpBack(c, id, 1);
    } else {
      var x := CartItem(id, 1);
      FindAppend(c, x, id);
      RemoveAppend(c, x);
      RemoveAbsent(c, id);
    }
  }

  // ---------------------------------------------------------------------------
  // Catalogue.

  const ALL: string := "전체"

  datatype Product = Product(
    id: string,
    title: string,
    price: real,
    image: string,
    rating: Option<real>,
    category: string,
    badge: Option<string>)

  function CategoriesOf(products: seq<Product>): (cs: seq<string>)
    ensures |cs| == |products| && forall i :: 0 <= i < |products| ==> cs[i] == products[i].category
  {
    if |products| == 0 then [] else [products[0].category] + CategoriesOf(products[1..])
  }

  /** `Array.from(new Set(xs))`: the first occurrence of each value, in
      order. */
  function Distinct(xs: seq<string>): (r: seq<string>)
    ensures forall x :: x in r <==> x in xs
    ensures forall i, j :: 0 <= i < j < |r| ==> r[i] != r[j]
  {
    if |xs| == 0 then []
    else
      var d := Distinct(xs[..|xs| - 1]);
      assert forall x :: x in xs <==> x in xs[..|xs| - 1] || x == xs[|xs| - 1];
      if xs[|xs| - 1] in d then d else d + [xs[|xs| - 1]]
  }

  /** `categories`: "전체" first, then each product category once. */
  function Categories(products: seq<Product>): (cs: seq<string>)
    ensures |cs| > 0 && cs[0] == ALL
    ensures forall c :: c in cs[1..] <==> exists i :: 0 <= i < |products| && products[i].category == c
    ensures forall i, j :: 1 <= i < j < |cs| ==> cs[i] != cs[j]
  {
    var d := Distinct(CategoriesOf(products));
    assert ([ALL] + d)[1..] == d;
    [ALL] + d
  }

  /** The order chosen in the page: 추천 (by rating), 낮은가격, 높은가격. */
  datatype SortOrder = Recommended | PriceLow | PriceHigh

  /** The number each order sorts ascending by: the comparators
      `a.price - b.price`, `b.price - a.price` and
      `(b.rating ?? 0) - (a.rating ?? 0)`. */
  function SortKey(order: SortOrder): Product -> real {
    match order
    case PriceLow => (p: Product) => p.price
    case PriceHigh => (p: Product) => -p.price
    case Recommended => (p: Product) => -(if p.rating.Some? then p.rating.value else 0.0)
  }

  predicate SortedBy(s: seq<Product>, key: Product -> real) {
    forall i, j :: 0 <= i < j < |s| ==> key(s[i]) <= key(s[j])
  }

  /** A product that may precede every product of a sorted list heads it
      sorted. */
  lemma SortedCons(a: Product, rest: seq<Product>, key: Product -> real)
    requires SortedBy(rest, key)
    requires forall y :: y in rest ==> key(a) <= key(y)
    ensures SortedBy([a] + rest, key)
  {
    var r := [a] + rest;
    forall i, j | 0 <= i < j < |r| ensures key(r[i]) <= key(r[j]) {
      assert r[j] == rest[j - 1];
      if i > 0 {
        assert r[i] == rest[i - 1];
      }
    }
  }

  /** The head of a sorted list may precede all of its tail. */
  lemma SortedHead(s: seq<Product>, key: Product -> real)
    requires SortedBy(s, key) && |s| > 0
    ensures forall y :: y in s[1..] ==> key(s[0]) <= key(y)
  {
    forall y | y in s[1..] ensures key(s[0]) <= key(y) {
      var k :| 0 <= k < |s[1..]| && s[1..][k] == y;
      assert s[k + 1] == y;
    }
  }

  /** Puts `x` before the first product whose key is not smaller, so that
      products with equal keys keep their order. */
  function InsertBy(x: Product, s: seq<Product>, key: Product -> real): (r: seq<Product>)
    requires SortedBy(s, key)
    ensures SortedBy(r, key)
    ensures forall y :: y in r ==> y in s || y == x
    ensures multiset(r) == multiset(s) + multiset{x}
  {
    if |s| == 0 then [x]
    else
      assert s == [s[0]] + s[1..];
      SortedHead(s, key);
      if key(x) <= key(s[0]) then
        SortedCons(x, s, key);
        [x] + s
      else
        var rest := InsertBy(x, s[1..], key);
        SortedCons(s[0], rest, key);
        [s[0]] + rest
  }

  /** `list.sort(cmp)`: a stable sort by the key. */
  function SortBy(s: seq<Product>, key: Product -> real): (r: seq<Product>)
    ensures SortedBy(r, key)
    ensures multiset(r) == multiset(s)
  {
    if |s| == 0 then []
    else
      assert s == [s[0]] + s[1..];
      InsertBy(s[0], SortBy(s[1..], key), key)
  }

  /** The search of the page: the category matches (or is 전체) and the
      trimmed query is empty or in the lower-cased title. */
  predicate Shown(p: Product, category: string, query: string) {
    (category == ALL || p.category == category) &&
    (Trim(query) == "" || Contains(Lower(p.title), Lower(Trim(query))))
  }

  function ShownBy(category: string, query: string): Product -> bool {
    (p: Product) => Shown(p, category, query)
  }

  /** `filtered`: the products the search keeps, each as often as in the
      catalogue, in the chosen order. */
  function Filtered(products: seq<Product>, category: string, query: string, order: SortOrder): (r: seq<Product>)
    ensures forall p :: p in r <==> p in products && Shown(p, category, query)
    ensures multiset(r) == multiset(Filter(products, ShownBy(category, query)))
    ensures SortedBy(r, SortKey(order))
  {
    var list := Filter(products, ShownBy(category, query));
    var r := SortBy(list, SortKey(order));
    assert forall p :: p in r <==> p in list by {
      forall p ensures p in r <==> p in list {
        assert p in r <==> p in multiset(r);
        assert p in list <==> p in multiset(list);
      }
    }
    r
  }
}
