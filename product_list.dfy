/**
 * The product table shared by the catalogue and the admin products page:
 * previous/next paging requests, the five-button page window, the stock
 * totals over the products of the current page, and the stock badge.
 */
module ProductList {
  import opened Js
  import opened Domain

  /** `handlePrev`: the page it asks the parent for, if any. */
  function PrevRequest(page: int): (r: Option<int>)
    ensures r.Some? <==> page > 0
    ensures r.Some? ==> r.value == page - 1 && r.value >= 0
  {
    if page > 0 then Some(page - 1) else None
  }

  /** `handleNext`: the page it asks the parent for, if any. */
  function NextRequest(page: int, totalPages: int): (r: Option<int>)
    ensures r.Some? <==> page < totalPages - 1
    ensures r.Some? ==> r.value == page + 1 && r.value < totalPages
  {
    if page < totalPages - 1 then Some(page + 1) else None
  }

  /** The "Précédent" button is disabled on the first page. */
  predicate PrevDisabled(page: int) { page == 0 }

  /** The "Suivant" button is disabled on the last page or beyond. */
  predicate NextDisabled(page: int, totalPages: int) { page >= totalPages - 1 }

  /** For a page index that is not negative, a button is disabled exactly
      when its handler would ask for nothing. */
  lemma ButtonsAgreeWithHandlers(page: nat, totalPages: int)
    ensures PrevDisabled(page) <==> PrevRequest(page) == None
    ensures NextDisabled(page, totalPages) <==> NextRequest(page, totalPages) == None
  {
  }

  /** `Array.from({ length: Math.min(totalPages, 5) })`: a negative length counts as 0. */
  function WindowLength(totalPages: int): (n: nat)
    ensures n <= 5
    ensures n == if totalPages <= 0 then 0 else if totalPages < 5 then totalPages else 5
  {
    if totalPages <= 0 then 0 else if totalPages < 5 then totalPages else 5
  }

  /** The page index shown on the i-th button. */
  function WindowIndex(page: int, totalPages: int, i: int): int
  {
    if totalPages <= 5 then i
    else if page < 3 then i
    else if page > totalPages - 4 then totalPages - 5 + i
    else page - 2 + i
  }

  /** The page indices of the numbered buttons. */
  function PageWindow(page: int, totalPages: int): (w: seq<int>)
    ensures |w| == WindowLength(totalPages)
    ensures forall i :: 0 < i < |w| ==> w[i] == w[i - 1] + 1
    ensures 0 <= page < totalPages ==> page in w
    ensures 0 <= page < totalPages ==> forall i :: 0 <= i < |w| ==> 0 <= w[i] < totalPages
  {
    var w := seq(WindowLength(totalPages), i => WindowIndex(page, totalPages, i));
    if 0 <= page < totalPages then
      assert w[page - WindowIndex(page, totalPages, 0)] == page;
      w
    else w
  }

  /** `p.stockQuantity || 0`. */
  function StockOrZero(p: Product): int
  {
    if p.stockQuantity.Some? then p.stockQuantity.value else 0
  }

  /** `products.reduce((sum, p) => sum + (p.stockQuantity || 0), acc)`. */
  function SumStockFrom(acc: int, products: seq<Product>): int
    decreases |products|
  {
    if products == [] then acc else SumStockFrom(acc + StockOrZero(products[0]), products[1..])
  }

  /** The "Stock total" card: 0 for no products, a single product's stock
      (0 when missing), and additive over concatenation (`TotalStockAppend`). */
  function TotalStock(products: seq<Product>): (t: int)
    ensures products == [] ==> t == 0
    ensures |products| == 1 ==> t == StockOrZero(products[0])
  {
    if |products| == 1 then
      assert SumStockFrom(StockOrZero(products[0]), products[1..]) == StockOrZero(products[0]);
      SumStockFrom(0, products)
    else SumStockFrom(0, products)
  }

  lemma {:induction false} SumStockFromShift(acc: int, products: seq<Product>)
    ensures SumStockFrom(acc, products) == acc + TotalStock(products)
    decreases |products|
  {
    if products != [] {
      SumStockFromShift(acc + StockOrZero(products[0]), products[1..]);
      SumStockFromShift(StockOrZero(products[0]), products[1..]);
    }
  }

  /** The total over two lists is the sum of their totals, a missing stock
      contributes nothing, and the total is not negative when no stock is. */
  lemma {:induction false} TotalStockAppend(a: seq<Product>, b: seq<Product>)
    ensures TotalStock(a + b) == TotalStock(a) + TotalStock(b)
    decreases |a|
  {
    if a != [] {
      calc {
        TotalStock(a + b);
        SumStockFrom(StockOrZero(a[0]), (a + b)[1..]);
        { assert (a + b)[1..] == a[1..] + b; SumStockFromShift(StockOrZero(a[0]), a[1..] + b); }
        StockOrZero(a[0]) + TotalStock(a[1..] + b);
        { TotalStockAppend(a[1..], b); }
        StockOrZero(a[0]) + TotalStock(a[1..]) + TotalStock(b);
        { SumStockFromShift(StockOrZero(a[0]), a[1..]); }
        TotalStock(a) + TotalStock(b);
      }
    } else {
      assert a + b == b;
    }
  }

  lemma {:induction false} TotalStockNonNegative(products: seq<Product>)
    requires forall i :: 0 <= i < |products| ==> StockOrZero(products[i]) >= 0
    ensures TotalStock(products) >= 0
    decreases |products|
  {
    if products != [] {
      SumStockFromShift(StockOrZero(products[0]), products[1..]);
      TotalStockNonNegative(products[1..]);
    }
  }

  /** The low-stock filter: a stock strictly between 0 and 10 (a missing
      stock is not greater than 0). */
  predicate LowStock(p: Product)
  {
    p.stockQuantity.Some? && 0 < p.stockQuantity.value < 10
  }

  /** `products.filter(LowStock)`: every low product keeps all its
      occurrences, every other product none (the order is stated by
      `LowStockProductsAppend`). */
  function LowStockProducts(products: seq<Product>): (r: seq<Product>)
    ensures |r| <= |products|
    ensures forall i :: 0 <= i < |r| ==> LowStock(r[i])
    ensures forall p :: multiset(r)[p] == if LowStock(p) then multiset(products)[p] else 0
    decreases |products|
  {
    if products == [] then []
    else
      var tail := LowStockProducts(products[1..]);
      assert products == [products[0]] + products[1..];
      if LowStock(products[0]) then [products[0]] + tail else tail
  }

  /** Filtering keeps the order: the low products of two lists are those of
      the first followed by those of the second. */
  lemma {:induction false} LowStockProductsAppend(a: seq<Product>, b: seq<Product>)
    ensures LowStockProducts(a + b) == LowStockProducts(a) + LowStockProducts(b)
    decreases |a|
  {
    if a == [] {
      assert a + b == b;
    } else {
      assert (a + b)[0] == a[0] && (a + b)[1..] == a[1..] + b;
      LowStockProductsAppend(a[1..], b);
    }
  }

  /** The positions of the low products. */
  function LowIndices(products: seq<Product>): set<nat>
  {
    set i: nat | i < |products| && LowStock(products[i])
  }

  /** The "Stock faible" card: the number of products whose stock lies
      strictly between 0 and 10. */
  function LowStockCount(products: seq<Product>): (n: nat)
    ensures n == |LowIndices(products)|
    ensures n <= |products|
    ensures n == |products| <==> forall i :: 0 <= i < |products| ==> LowStock(products[i])
  {
    LowStockCountIsFullIffAllLow(products);
    LowIndicesCount(products);
    |LowStockProducts(products)|
  }

  /** Adding a product at the end adds its position when it is low. */
  lemma LowIndicesSnoc(init: seq<Product>, last: Product)
    ensures LowIndices(init + [last]) == LowIndices(init) + (if LowStock(last) then {|init|} else {})
  {
    var products := init + [last];
    forall i | i in LowIndices(products)
      ensures i in LowIndices(init) + (if LowStock(last) then {|init|} else {})
    {
      if i < |init| {
        assert init[i] == products[i];
      }
    }
    forall i | i in LowIndices(init) ensures i in LowIndices(products) {
      assert init[i] == products[i];
    }
  }

  /** The filtered list has one element per low position. */
  lemma {:induction false} LowIndicesCount(products: seq<Product>)
    ensures |LowStockProducts(products)| == |LowIndices(products)|
    decreases |products|
  {
    if products != [] {
      var n := |products| - 1;
      var init, last := products[..n], products[n];
      assert products == init + [last];
      LowIndicesCount(init);
      LowStockProductsAppend(init, [last]);
      LowIndicesSnoc(init, last);
      assert n !in LowIndices(init);
    }
  }

  lemma {:induction false} LowStockCountIsFullIffAllLow(products: seq<Product>)
    ensures |LowStockProducts(products)| == |products| <==> forall i :: 0 <= i < |products| ==> LowStock(products[i])
    decreases |products|
  {
    if products != [] {
      LowStockCountIsFullIffAllLow(products[1..]);
      if forall i :: 0 <= i < |products| ==> LowStock(products[i]) {
        assert forall i :: 0 <= i < |products[1..]| ==> products[1..][i] == products[i + 1];
      }
      if |LowStockProducts(products)| == |products| {
        assert LowStock(products[0]);
        forall i | 0 <= i < |products| ensures LowStock(products[i]) {
          if i > 0 {
            assert products[1..][i - 1] == products[i];
          }
        }
      }
    }
  }

  datatype StockLevel = OutOfStock | Low | Available

  /** The stock badge's colour and wording: `=== 0` first, then `< 10`. A
      stock the backend sent as null compares as 0 with `<`, so it reads as low. */
  function StockLevelOf(stock: Option<int>): (l: StockLevel)
    ensures l == OutOfStock <==> stock == Some(0)
    ensures l == Low <==> stock == None || (stock.value != 0 && stock.value < 10)
    ensures l == Available <==> stock.Some? && stock.value >= 10
  {
    if stock == Some(0) then OutOfStock
    else if (if stock.None? then 0 else stock.value) < 10 then Low
    else Available
  }

  /** `${product.stockQuantity}`, with the null the backend sends for a missing stock. */
  function StockText(stock: Option<int>): string
  {
    if stock.Some? then IntText(stock.value) else "null"
  }

  /** The text of the stock badge. */
  function StockLabel(stock: Option<int>): (text: string)
    ensures text == "Rupture" <==> stock == Some(0)
    ensures StockLevelOf(stock) == Low ==> text == StockText(stock) + " · Faible"
    ensures StockLevelOf(stock) == Available ==> text == StockText(stock) + " · Dispo"
  {
    match StockLevelOf(stock)
    case OutOfStock => "Rupture"
    case Low => StockText(stock) + " · Faible"
    case Available => StockText(stock) + " · Dispo"
  }
}
