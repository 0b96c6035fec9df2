/** The cost of goods sold in the margin report: the loop with a cost cache, against its
    plain definition. Costs are in half cents, so that half of a price is exact. */
module CostOfGoods {
  import opened Wrappers

  type ProductId = nat

  datatype SoldItem = SoldItem(product: ProductId, quantity: nat, price: nat)
  datatype PurchaseLine = PurchaseLine(product: ProductId, received: bool, createdAt: int, unitCost: nat)

  predicate Relevant(line: PurchaseLine, p: ProductId)
  {
    line.product == p && line.received
  }

  /** The unit cost of the latest received purchase of a product; the first listed wins a tie. */
  function LatestPurchase(lines: seq<PurchaseLine>, p: ProductId): (found: Option<PurchaseLine>)
    ensures found == None <==> forall i :: 0 <= i < |lines| ==> !Relevant(lines[i], p)
    ensures found.Some? ==> found.value in lines && Relevant(found.value, p)
    ensures found.Some? ==>
              forall i :: 0 <= i < |lines| && Relevant(lines[i], p) ==> lines[i].createdAt <= found.value.createdAt
  {
    if lines == [] then None
    else
      var rest := LatestPurchase(lines[1..], p);
      if !Relevant(lines[0], p) then rest
      else if rest.Some? && rest.value.createdAt > lines[0].createdAt then rest
      else Some(lines[0])
  }

  /** Line `k` is the received purchase of the product that no other one postdates; of
      equally late ones it is the first listed. */
  predicate IsLatest(lines: seq<PurchaseLine>, p: ProductId, k: nat)
  {
    && k < |lines| && lines[k].product == p && lines[k].received
    && forall i :: 0 <= i < |lines| && lines[i].product == p && lines[i].received && i != k ==>
         lines[i].createdAt < lines[k].createdAt || (lines[i].createdAt == lines[k].createdAt && k < i)
  }

  predicate NeverReceived(lines: seq<PurchaseLine>, p: ProductId)
  {
    forall i :: 0 <= i < |lines| ==> !(lines[i].product == p && lines[i].received)
  }

  lemma {:induction false} LatestExists(lines: seq<PurchaseLine>, p: ProductId) returns (k: nat)
    requires !NeverReceived(lines, p)
    ensures IsLatest(lines, p, k) && LatestPurchase(lines, p) == Some(lines[k])
    decreases |lines|
  {
    if NeverReceived(lines[1..], p) {
      k := 0;
      forall i | 0 < i < |lines| ensures !Relevant(lines[i], p) {
        assert lines[i] == lines[1..][i - 1];
      }
    } else {
      var j := LatestExists(lines[1..], p);
      k := if Relevant(lines[0], p) && lines[1..][j].createdAt <= lines[0].createdAt then 0 else j + 1;
      forall i | 0 < i < |lines| && Relevant(lines[i], p) && i != j + 1
        ensures lines[i].createdAt < lines[j + 1].createdAt
             || (lines[i].createdAt == lines[j + 1].createdAt && j + 1 < i)
      {
        assert lines[i] == lines[1..][i - 1];
      }
    }
  }

  /** A unit's cost: its latest received purchase, or else half of `price`. */
  function UnitCost(lines: seq<PurchaseLine>, p: ProductId, price: nat): nat
  {
    var purchase := LatestPurchase(lines, p);
    if purchase.Some? then 2 * purchase.value.unitCost else price
  }

  function FirstPrice(items: seq<SoldItem>, p: ProductId): nat
  {
    if items == [] then 0 else if items[0].product == p then items[0].price else FirstPrice(items[1..], p)
  }

  function Products(items: seq<SoldItem>): set<ProductId>
  {
    set k | 0 <= k < |items| :: items[k].product
  }

  function CostOf(lines: seq<PurchaseLine>, all: seq<SoldItem>, p: ProductId): nat
  {
    UnitCost(lines, p, FirstPrice(all, p))
  }

  /** The plain definition: every item at its product's cost, which without a purchase is
      half the price of the product's first item in `all`. */
  function PlainCost(lines: seq<PurchaseLine>, all: seq<SoldItem>, items: seq<SoldItem>): nat
  {
    if items == [] then 0
    else
      var last := items[|items| - 1];
      PlainCost(lines, all, items[..|items| - 1]) + CostOf(lines, all, last.product) * last.quantity
  }

  lemma {:induction false} FirstPriceOfNew(items: seq<SoldItem>, n: nat)
    requires n < |items|
    requires forall k :: 0 <= k < n ==> items[k].product != items[n].product
    ensures FirstPrice(items, items[n].product) == items[n].price
    decreases n
  {
    if n > 0 {
      assert items[0].product != items[n].product;
      FirstPriceOfNew(items[1..], n - 1);
    }
  }

  lemma FirstCostOf(lines: seq<PurchaseLine>, items: seq<SoldItem>, n: nat)
    requires n < |items| && items[n].product !in Products(items[..n])
    ensures CostOf(lines, items, items[n].product) == UnitCost(lines, items[n].product, items[n].price)
  {
    forall k | 0 <= k < n ensures items[k].product != items[n].product {
      assert items[..n][k].product in Products(items[..n]);
    }
    FirstPriceOfNew(items, n);
  }

  lemma ProductsGrow(items: seq<SoldItem>, i: nat)
    requires i < |items|
    ensures Products(items[..i + 1]) == Products(items[..i]) + {items[i].product}
  {
    forall p ensures p in Products(items[..i + 1]) <==> p in Products(items[..i]) + {items[i].product} {
      if p in Products(items[..i]) {
        var k :| 0 <= k < i && items[..i][k].product == p;
        assert items[..i + 1][k].product == p;
      }
      assert items[..i + 1][i] == items[i];
    }
  }

  lemma CostGrows(lines: seq<PurchaseLine>, all: seq<SoldItem>, i: nat)
    requires i < |all|
    ensures PlainCost(lines, all, all[..i + 1])
         == PlainCost(lines, all, all[..i]) + CostOf(lines, all, all[i].product) * all[i].quantity
  {
    assert all[..i + 1][..i] == all[..i];
  }

  /** The look-up on a cache miss: the unit cost of the received purchase that no other one
      postdates, or half the item's price if the product was never received. */
  method LookUpCost(lines: seq<PurchaseLine>, item: SoldItem) returns (cost: nat)
    ensures NeverReceived(lines, item.product) ==> cost == item.price
    ensures !NeverReceived(lines, item.product) ==>
              exists k: nat :: IsLatest(lines, item.product, k) && cost == 2 * lines[k].unitCost
  {
    var lastPurchase := LatestPurchase(lines, item.product);
    if lastPurchase.Some? {
      var _ := LatestExists(lines, item.product);
      cost := 2 * lastPurchase.value.unitCost;
    } else {
      cost := item.price;
    }
  }

  /** What the look-up promises leaves it no choice. */
  lemma LatestIsUnique(lines: seq<PurchaseLine>, p: ProductId, price: nat, cost: nat)
    requires NeverReceived(lines, p) ==> cost == price
    requires !NeverReceived(lines, p) ==> exists k: nat :: IsLatest(lines, p, k) && cost == 2 * lines[k].unitCost
    ensures cost == UnitCost(lines, p, price)
  {
    if !NeverReceived(lines, p) {
      var j := LatestExists(lines, p);
      var k: nat :| IsLatest(lines, p, k) && cost == 2 * lines[k].unitCost;
      assert j == k;
    }
  }

  /** The report's loop refines the plain definition. */
  method CostOfGoodsSold(lines: seq<PurchaseLine>, items: seq<SoldItem>) returns (totalCost: nat)
    ensures totalCost == PlainCost(lines, items, items)
  {
    hide UnitCost;
    totalCost := 0;
    var costCache: map<ProductId, nat> := map[];
    for i := 0 to |items|
      invariant totalCost == PlainCost(lines, items, items[..i])
      invariant costCache.Keys == Products(items[..i])
      invariant forall p :: p in costCache ==> costCache[p] == CostOf(lines, items, p)
    {
      var item := items[i];
      if item.product !in costCache {
        FirstCostOf(lines, items, i);
        var cost := LookUpCost(lines, item);
        LatestIsUnique(lines, item.product, item.price, cost);
        costCache := costCache[item.product := cost];
      }
      totalCost := totalCost + costCache[item.product] * item.quantity;
      CostGrows(lines, items, i);
      ProductsGrow(items, i);
    }
    assert items[..|items|] == items;
  }

  // ---------------------------------------------------------------- what the cost depends on

  predicate AllPurchased(lines: seq<PurchaseLine>, items: seq<SoldItem>)
  {
    forall k :: 0 <= k < |items| ==> LatestPurchase(lines, items[k].product).Some?
  }

  function Units(items: seq<SoldItem>, p: ProductId): nat
  {
    if items == [] then 0
    else
      var last := items[|items| - 1];
      Units(items[..|items| - 1], p) + if last.product == p then last.quantity else 0
  }

  /** Whether the first prices are read from `x` or from `y` makes no difference to `q`. */
  predicate SamePrice(lines: seq<PurchaseLine>, x: seq<SoldItem>, y: seq<SoldItem>, items: seq<SoldItem>, q: ProductId)
  {
    LatestPurchase(lines, q).Some? || Units(items, q) == 0 || FirstPrice(x, q) == FirstPrice(y, q)
  }

  /** If the first prices in `x` and `y` matter for one product only, they shift the cost
      by their difference for every unit of it. */
  lemma {:induction false} CostDifference(
      lines: seq<PurchaseLine>, x: seq<SoldItem>, y: seq<SoldItem>, items: seq<SoldItem>, p: ProductId)
    requires forall q :: q != p ==> SamePrice(lines, x, y, items, q)
    ensures LatestPurchase(lines, p).Some? ==> PlainCost(lines, x, items) == PlainCost(lines, y, items)
    ensures LatestPurchase(lines, p) == None ==>
              PlainCost(lines, x, items) - PlainCost(lines, y, items)
              == (FirstPrice(x, p) - FirstPrice(y, p)) * Units(items, p)
    decreases |items|
  {
    if items != [] {
      var rest, last := items[..|items| - 1], items[|items| - 1];
      forall q | q != p ensures SamePrice(lines, x, y, rest, q) {
        assert SamePrice(lines, x, y, items, q);
      }
      CostDifference(lines, x, y, rest, p);
      hide LatestPurchase;
      hide FirstPrice;
      if last.product == p {
        OneMore(FirstPrice(x, p), FirstPrice(y, p), Units(rest, p), last.quantity);
      } else {
        assert SamePrice(lines, x, y, items, last.product);
        if Units(items, last.product) == 0 {
          assert last.quantity == 0;
        }
      }
    }
  }

  lemma OneMore(a: int, b: int, units: int, more: int)
    ensures (a - b) * units + a * more - b * more == (a - b) * (units + more)
  {
  }

  lemma SamePricesSameCost(lines: seq<PurchaseLine>, x: seq<SoldItem>, y: seq<SoldItem>, items: seq<SoldItem>)
    requires forall q :: SamePrice(lines, x, y, items, q)
    ensures PlainCost(lines, x, items) == PlainCost(lines, y, items)
  {
    assert SamePrice(lines, x, y, items, 0);
    CostDifference(lines, x, y, items, 0);
  }

  lemma {:induction false} CostOfConcat(
      lines: seq<PurchaseLine>, all: seq<SoldItem>, a: seq<SoldItem>, b: seq<SoldItem>)
    ensures PlainCost(lines, all, a + b) == PlainCost(lines, all, a) + PlainCost(lines, all, b)
    decreases |b|
  {
    if b == [] {
      assert a + b == a;
    } else {
      assert (a + b)[..|a + b| - 1] == a + b[..|b| - 1];
      CostOfConcat(lines, all, a, b[..|b| - 1]);
    }
  }

  lemma {:induction false} UnitsOfConcat(a: seq<SoldItem>, b: seq<SoldItem>, p: ProductId)
    ensures Units(a + b, p) == Units(a, p) + Units(b, p)
    decreases |b|
  {
    if b == [] {
      assert a + b == a;
    } else {
      assert (a + b)[..|a + b| - 1] == a + b[..|b| - 1];
      UnitsOfConcat(a, b[..|b| - 1], p);
    }
  }

  // ---------------------------------------------------------------- adding up over a split

  /** The first item of `q` from position `k` on. */
  lemma {:induction false} FirstFrom(items: seq<SoldItem>, k: nat, q: ProductId) returns (i: nat)
    requires k <= |items| && Units(items[k..], q) > 0
    ensures k <= i < |items| && items[i].product == q
    ensures FirstPrice(items[k..], q) == items[i].price && Units(items[i..], q) == Units(items[k..], q)
    decreases |items| - k
  {
    if items[k].product == q {
      i := k;
    } else {
      assert items[k..] == [items[k]] + items[k + 1..];
      UnitsOfConcat([items[k]], items[k + 1..], q);
      assert [items[k]][..0] == [];
      i := FirstFrom(items, k + 1, q);
    }
  }

  /** The report over `items` is the sum of the reports over its two parts, however split. */
  ghost predicate SplitsFreely(lines: seq<PurchaseLine>, items: seq<SoldItem>)
  {
    forall k :: 0 <= k <= |items| ==> SplitsAt(lines, items, k)
  }

  predicate SplitsAt(lines: seq<PurchaseLine>, items: seq<SoldItem>, k: nat)
    requires k <= |items|
  {
    PlainCost(lines, items, items)
    == PlainCost(lines, items[..k], items[..k]) + PlainCost(lines, items[k..], items[k..])
  }

  /** Item `k` has its product's first price, unless a purchase sets the cost or no unit of
      the product is sold from there on. */
  predicate HasFirstPrice(lines: seq<PurchaseLine>, items: seq<SoldItem>, k: nat)
    requires k < |items|
  {
    var p := items[k].product;
    LatestPurchase(lines, p).Some? || Units(items[k..], p) == 0 || items[k].price == FirstPrice(items, p)
  }

  lemma {:induction false} FirstPriceOfPrefix(items: seq<SoldItem>, k: nat, q: ProductId)
    requires k <= |items| && q in Products(items[..k])
    ensures FirstPrice(items[..k], q) == FirstPrice(items, q)
    decreases k
  {
    if items[0].product != q {
      var i :| 0 <= i < k && items[..k][i].product == q;
      assert items[..k][1..] == items[1..][..k - 1];
      assert items[1..][..k - 1][i - 1].product == q;
      FirstPriceOfPrefix(items[1..], k - 1, q);
    }
  }

  lemma {:induction false} NoUnits(items: seq<SoldItem>, q: ProductId)
    requires q !in Products(items)
    ensures Units(items, q) == 0
    decreases |items|
  {
    if items != [] {
      assert items[|items| - 1].product in Products(items);
      forall r | r in Products(items[..|items| - 1]) ensures r in Products(items) {
        var i :| 0 <= i < |items| - 1 && items[..|items| - 1][i].product == r;
        assert items[i].product == r;
      }
      NoUnits(items[..|items| - 1], q);
    }
  }

  /** A split at `k` adds up exactly when the second part costs the same on its own. */
  lemma SplitMeans(lines: seq<PurchaseLine>, items: seq<SoldItem>, k: nat)
    requires k <= |items|
    ensures SplitsAt(lines, items, k) <==>
            PlainCost(lines, items, items[k..]) == PlainCost(lines, items[k..], items[k..])
  {
    assert items == items[..k] + items[k..];
    CostOfConcat(lines, items, items[..k], items[k..]);
    forall q ensures SamePrice(lines, items, items[..k], items[..k], q) {
      if q in Products(items[..k]) {
        FirstPriceOfPrefix(items, k, q);
      } else {
        NoUnits(items[..k], q);
      }
    }
    SamePricesSameCost(lines, items, items[..k], items[..k]);
  }

  lemma SuffixPrice(lines: seq<PurchaseLine>, items: seq<SoldItem>, k: nat, q: ProductId)
    requires k <= |items|
    requires forall i :: k <= i < |items| && items[i].product == q ==> HasFirstPrice(lines, items, i)
    ensures SamePrice(lines, items, items[k..], items[k..], q)
  {
    if Units(items[k..], q) > 0 {
      var i := FirstFrom(items, k, q);
      assert HasFirstPrice(lines, items, i);
    }
  }

  lemma SplitNeedsFirstPrice(lines: seq<PurchaseLine>, items: seq<SoldItem>, k: nat)
    requires k < |items| && SplitsAt(lines, items, k)
    requires forall i :: k < i < |items| ==> HasFirstPrice(lines, items, i)
    ensures HasFirstPrice(lines, items, k)
  {
    hide PlainCost;
    hide LatestPurchase;
    var p := items[k].product;
    if LatestPurchase(lines, p) == None && Units(items[k..], p) > 0 {
      forall q | q != p ensures SamePrice(lines, items, items[k..], items[k..], q) {
        SuffixPrice(lines, items, k, q);
      }
      CostDifference(lines, items, items[k..], items[k..], p);
      SplitMeans(lines, items, k);
      assert FirstPrice(items[k..], p) == items[k].price;
      if FirstPrice(items, p) != items[k].price {
        NotZero(FirstPrice(items, p) - items[k].price, Units(items[k..], p));
      }
    }
  }

  lemma NotZero(a: int, b: int)
    requires a != 0 && b != 0
    ensures a * b != 0
  {
  }

  lemma {:induction false} SplitsNeedFirstPrices(lines: seq<PurchaseLine>, items: seq<SoldItem>, k: nat)
    requires k <= |items| && SplitsFreely(lines, items)
    ensures forall i :: k <= i < |items| ==> HasFirstPrice(lines, items, i)
    decreases |items| - k
  {
    if k < |items| {
      SplitsNeedFirstPrices(lines, items, k + 1);
      SplitNeedsFirstPrice(lines, items, k);
    }
  }

  /** The report adds up over every split of the period's items exactly when every item of
      a product without a purchase has that product's first price, or comes after its last
      unit; so it always does when every product has been received. */
  lemma CostIsAdditive(lines: seq<PurchaseLine>, items: seq<SoldItem>)
    ensures SplitsFreely(lines, items) <==> forall k :: 0 <= k < |items| ==> HasFirstPrice(lines, items, k)
    ensures AllPurchased(lines, items) ==> SplitsFreely(lines, items)
  {
    if SplitsFreely(lines, items) {
      SplitsNeedFirstPrices(lines, items, 0);
    }
    if forall k :: 0 <= k < |items| ==> HasFirstPrice(lines, items, k) {
      forall k | 0 <= k <= |items| ensures SplitsAt(lines, items, k) {
        forall q ensures SamePrice(lines, items, items[k..], items[k..], q) {
          SuffixPrice(lines, items, k, q);
        }
        SamePricesSameCost(lines, items, items[k..], items[k..]);
        SplitMeans(lines, items, k);
      }
    }
  }

  // ---------------------------------------------------------------- the order of the items

  lemma CostOfOne(lines: seq<PurchaseLine>, all: seq<SoldItem>, a: seq<SoldItem>, k: nat)
    requires k < |a|
    ensures PlainCost(lines, all, a)
         == PlainCost(lines, all, a[..k] + a[k + 1..]) + CostOf(lines, all, a[k].product) * a[k].quantity
  {
    assert a == a[..k] + ([a[k]] + a[k + 1..]);
    CostOfConcat(lines, all, a[..k], [a[k]] + a[k + 1..]);
    CostOfConcat(lines, all, [a[k]], a[k + 1..]);
    CostOfConcat(lines, all, a[..k], a[k + 1..]);
    assert [a[k]][..0] == [];
  }

  lemma Without(a: seq<SoldItem>, k: nat)
    requires k < |a|
    ensures multiset(a[..k] + a[k + 1..]) == multiset(a) - multiset{a[k]}
  {
    assert a == a[..k] + [a[k]] + a[k + 1..];
  }

  /** The head of one listing is somewhere in any other, and the rests match. */
  lemma MatchedHead(a: seq<SoldItem>, b: seq<SoldItem>) returns (k: nat)
    requires a != [] && multiset(a) == multiset(b)
    ensures k < |b| && b[k] == a[0] && multiset(a[1..]) == multiset(b[..k] + b[k + 1..])
  {
    assert a[0] in multiset(b);
    k :| 0 <= k < |b| && b[k] == a[0];
    Without(a, 0);
    Without(b, k);
    assert a[..0] + a[1..] == a[1..];
  }

  lemma {:induction false} PermutedCost(
      lines: seq<PurchaseLine>, all: seq<SoldItem>, a: seq<SoldItem>, b: seq<SoldItem>)
    requires multiset(a) == multiset(b)
    ensures PlainCost(lines, all, a) == PlainCost(lines, all, b)
    decreases |a|
  {
    if a == [] {
      assert |multiset(b)| == |multiset(a)|;
    } else {
      var k := MatchedHead(a, b);
      CostOfOne(lines, all, a, 0);
      CostOfOne(lines, all, b, k);
      assert a[..0] + a[1..] == a[1..];
      PermutedCost(lines, all, a[1..], b[..k] + b[k + 1..]);
    }
  }

  /** The report does not depend on how the items are listed. */
  ghost predicate OrderFree(lines: seq<PurchaseLine>, a: seq<SoldItem>)
  {
    forall b :: multiset(b) == multiset(a) ==> PlainCost(lines, b, b) == PlainCost(lines, a, a)
  }

  /** A product without a purchase, of which anything was sold, has one price. */
  predicate OnePrice(lines: seq<PurchaseLine>, a: seq<SoldItem>)
  {
    forall i, j :: 0 <= i < |a| && 0 <= j < |a| && a[i].product == a[j].product ==>
      LatestPurchase(lines, a[i].product).Some? || Units(a, a[i].product) == 0 || a[i].price == a[j].price
  }

  lemma FirstPriceIsListed(a: seq<SoldItem>, p: ProductId) returns (i: nat)
    requires Units(a, p) > 0
    ensures i < |a| && a[i].product == p && a[i].price == FirstPrice(a, p)
  {
    assert a[0..] == a;
    i := FirstFrom(a, 0, p);
  }

  lemma {:induction false} UnitsOfPermutation(a: seq<SoldItem>, b: seq<SoldItem>, p: ProductId)
    requires multiset(a) == multiset(b)
    ensures Units(a, p) == Units(b, p)
    decreases |a|
  {
    if a == [] {
      assert |multiset(b)| == |multiset(a)|;
    } else {
      var k := MatchedHead(a, b);
      UnitsOfOne(a, 0, p);
      UnitsOfOne(b, k, p);
      assert a[..0] + a[1..] == a[1..];
      UnitsOfPermutation(a[1..], b[..k] + b[k + 1..], p);
    }
  }

  lemma UnitsOfOne(a: seq<SoldItem>, k: nat, p: ProductId)
    requires k < |a|
    ensures Units(a, p) == Units(a[..k] + a[k + 1..], p) + if a[k].product == p then a[k].quantity else 0
  {
    assert a == a[..k] + ([a[k]] + a[k + 1..]);
    UnitsOfConcat(a[..k], [a[k]] + a[k + 1..], p);
    UnitsOfConcat([a[k]], a[k + 1..], p);
    UnitsOfConcat(a[..k], a[k + 1..], p);
    assert [a[k]][..0] == [];
  }

  lemma OnePriceIsEnough(lines: seq<PurchaseLine>, a: seq<SoldItem>, b: seq<SoldItem>)
    requires OnePrice(lines, a) && multiset(b) == multiset(a)
    ensures PlainCost(lines, b, b) == PlainCost(lines, a, a)
  {
    PermutedCost(lines, b, b, a);
    forall q ensures SamePrice(lines, b, a, a, q) {
      if Units(a, q) > 0 {
        UnitsOfPermutation(a, b, q);
        var i := FirstPriceIsListed(a, q);
        var j := FirstPriceIsListed(b, q);
        assert b[j] in multiset(b);
        assert b[j] in a;
      }
    }
    SamePricesSameCost(lines, b, a, a);
  }

  /** The items with the k-th moved to the front. */
  function Fronted(a: seq<SoldItem>, k: nat): seq<SoldItem>
    requires k < |a|
  {
    [a[k]] + (a[..k] + a[k + 1..])
  }

  lemma {:induction false} FirstPriceOfConcat(a: seq<SoldItem>, b: seq<SoldItem>, q: ProductId)
    ensures FirstPrice(a + b, q) == if q in Products(a) then FirstPrice(a, q) else FirstPrice(b, q)
    decreases |a|
  {
    if a == [] {
      assert a + b == b;
    } else {
      assert (a + b)[1..] == a[1..] + b;
      FirstPriceOfConcat(a[1..], b, q);
      assert a == [a[0]] + a[1..];
      assert q in Products(a) <==> a[0].product == q || q in Products(a[1..]) by {
        if q in Products(a) {
          var i :| 0 <= i < |a| && a[i].product == q;
          assert i == 0 || a[1..][i - 1].product == q;
        }
        if q in Products(a[1..]) {
          var i :| 0 <= i < |a[1..]| && a[1..][i].product == q;
          assert a[i + 1].product == q;
        }
      }
    }
  }

  lemma FrontedPrices(a: seq<SoldItem>, k: nat, q: ProductId)
    requires k < |a|
    ensures multiset(Fronted(a, k)) == multiset(a)
    ensures FirstPrice(Fronted(a, k), q) == if q == a[k].product then a[k].price else FirstPrice(a, q)
  {
    assert a == a[..k] + ([a[k]] + a[k + 1..]);
    if q != a[k].product {
      FirstPriceOfConcat(a[..k], [a[k]] + a[k + 1..], q);
      FirstPriceOfConcat(a[..k], a[k + 1..], q);
    }
  }

  /** Two prices for a product without a purchase, and two listings with different costs. */
  lemma TwoPricesTwoCosts(lines: seq<PurchaseLine>, a: seq<SoldItem>, i: nat, j: nat)
    requires i < |a| && j < |a| && a[i].product == a[j].product && a[i].price != a[j].price
    requires LatestPurchase(lines, a[i].product) == None && Units(a, a[i].product) > 0
    ensures !OrderFree(lines, a)
  {
    var p := a[i].product;
    var x, y := Fronted(a, i), Fronted(a, j);
    forall q ensures q != p ==> SamePrice(lines, x, y, a, q) {
      FrontedPrices(a, i, q);
      FrontedPrices(a, j, q);
    }
    FrontedPrices(a, i, p);
    FrontedPrices(a, j, p);
    CostDifference(lines, x, y, a, p);
    PermutedCost(lines, x, x, a);
    PermutedCost(lines, y, y, a);
    NotZero(a[i].price - a[j].price, Units(a, p));
  }

  /** The report does not depend on the order of the items exactly when each product sold
      without ever having been received has a single price. */
  lemma CostIgnoresOrder(lines: seq<PurchaseLine>, a: seq<SoldItem>)
    ensures OrderFree(lines, a) <==> OnePrice(lines, a)
    ensures AllPurchased(lines, a) ==> OrderFree(lines, a)
  {
    if OnePrice(lines, a) {
      hide OnePrice;
      forall b | multiset(b) == multiset(a) ensures PlainCost(lines, b, b) == PlainCost(lines, a, a) {
        OnePriceIsEnough(lines, a, b);
      }
    } else {
      var i, j :| 0 <= i < |a| && 0 <= j < |a| && a[i].product == a[j].product
        && LatestPurchase(lines, a[i].product) == None && Units(a, a[i].product) > 0 && a[i].price != a[j].price;
      TwoPricesTwoCosts(lines, a, i, j);
    }
  }

  /** Without a received purchase the order of the items can change the cost. */
  lemma CostCanDependOnOrder()
    ensures var a, b := SoldItem(1, 1, 100), SoldItem(1, 1, 300);
            PlainCost([], [a, b], [a, b]) == 200 && PlainCost([], [b, a], [b, a]) == 600
  {
    var a, b := SoldItem(1, 1, 100), SoldItem(1, 1, 300);
    TwoItems(a, b);
    TwoItems(b, a);
  }

  lemma TwoItems(a: SoldItem, b: SoldItem)
    requires a.product == b.product
    ensures PlainCost([], [a, b], [a, b]) == a.price * a.quantity + a.price * b.quantity
  {
    assert [a, b][..1] == [a] && [a][..0] == [];
    assert CostOf([], [a, b], a.product) == a.price;
    assert PlainCost([], [a, b], [a]) == a.price * a.quantity;
  }
}
