/** The shopping cart of the shop context (context/ShopContext.tsx): the four
    operations the provider exposes, the two derived totals, and what they
    keep invariant. Every operation maps the previous cart to a new one, as
    the source's `setCart(prev => ...)` updaters do. */
module ShopCart {
  import opened Types
  import Seqs

  /** Some entry of the cart holds the product with this id. */
  predicate HasId(cart: Cart, id: string) {
    exists i :: 0 <= i < |cart| && cart[i].product.id == id
  }

  /** No two entries share a product id (what merge-on-add maintains). */
  predicate UniqueIds(cart: Cart) {
    forall i, j :: 0 <= i < j < |cart| ==> cart[i].product.id != cart[j].product.id
  }

  /** Every entry holds at least one unit. */
  predicate PositiveQuantities(cart: Cart) {
    forall i :: 0 <= i < |cart| ==> cart[i].quantity > 0
  }

  predicate WellFormed(cart: Cart) {
    UniqueIds(cart) && PositiveQuantities(cart)
  }

  /** The position of the first entry with this product id, as
      `Array.prototype.find` sees it. */
  function Find(cart: Cart, id: string): (r: Option<nat>)
    ensures r.Some? ==> r.value < |cart| && cart[r.value].product.id == id
    ensures r.Some? ==> forall j :: 0 <= j < r.value ==> cart[j].product.id != id
    ensures r.None? <==> !HasId(cart, id)
    decreases |cart|
  {
    if cart == [] then None
    else if cart[0].product.id == id then Some(0)
    else
      match Find(cart[1..], id)
      case None => None
      case Some(k) => Some(k + 1)
  }

  /** The per-entry update of the merge branch of `addToCart`: every entry
      with this id gains one unit, every other entry is untouched. */
  function IncrementMatching(cart: Cart, id: string): (r: Cart)
    ensures |r| == |cart|
    ensures forall i :: 0 <= i < |cart| ==> r[i].product == cart[i].product
    ensures forall i :: 0 <= i < |cart| && cart[i].product.id == id ==>
              r[i].quantity == cart[i].quantity + 1
    ensures forall i :: 0 <= i < |cart| && cart[i].product.id != id ==> r[i] == cart[i]
    decreases |cart|
  {
    if cart == [] then []
    else
      var head := if cart[0].product.id == id
                  then cart[0].(quantity := cart[0].quantity + 1)
                  else cart[0];
      [head] + IncrementMatching(cart[1..], id)
  }

  /** The per-entry update of `updateQuantity` for a positive quantity: every
      entry with this id gets exactly `q` units. */
  function SetMatching(cart: Cart, id: string, q: int): (r: Cart)
    ensures |r| == |cart|
    ensures forall i :: 0 <= i < |cart| ==> r[i].product == cart[i].product
    ensures forall i :: 0 <= i < |cart| && cart[i].product.id == id ==> r[i].quantity == q
    ensures forall i :: 0 <= i < |cart| && cart[i].product.id != id ==> r[i] == cart[i]
    decreases |cart|
  {
    if cart == [] then []
    else
      var head := if cart[0].product.id == id then cart[0].(quantity := q) else cart[0];
      [head] + SetMatching(cart[1..], id, q)
  }

  /** `addToCart`: merge into an existing entry, or append a new one. */
  function AddToCart(cart: Cart, p: Product): (r: Cart)
    ensures HasId(cart, p.id) ==> |r| == |cart|
    ensures HasId(cart, p.id) ==> forall i :: 0 <= i < |cart| ==>
              r[i].product == cart[i].product &&
              r[i].quantity == cart[i].quantity + (if cart[i].product.id == p.id then 1 else 0)
    ensures !HasId(cart, p.id) ==> |r| == |cart| + 1 && r[..|cart|] == cart
    ensures !HasId(cart, p.id) ==> r[|cart|] == CartItem(p, 1)
  {
    match Find(cart, p.id)
    case Some(_) => IncrementMatching(cart, p.id)
    case None => cart + [CartItem(p, 1)]
  }

  /** The test `removeFromCart` filters with. */
  function NotId(id: string): CartItem -> bool {
    (item: CartItem) => item.product.id != id
  }

  /** `removeFromCart`: drop every entry with this id, keep the rest in order. */
  function RemoveFromCart(cart: Cart, id: string): (r: Cart)
    ensures forall x :: x in r <==> x in cart && x.product.id != id
    ensures !HasId(r, id)
    ensures Seqs.IsSubsequence(r, cart)
    ensures HasId(cart, id) <==> |r| < |cart|
    ensures !HasId(cart, id) ==> r == cart
    ensures forall x: CartItem :: x.product.id != id ==> multiset(r)[x] == multiset(cart)[x]
  {
    var r := Seqs.Filter(cart, NotId(id));
    Seqs.FilterMembership(cart, NotId(id));
    Seqs.FilterCounts(cart, NotId(id));
    Seqs.FilterIsSubsequence(cart, NotId(id));
    match Find(cart, id)
    case Some(k) => Seqs.FilterDrops(cart, NotId(id), k); r
    case None => r
  }

  /** `updateQuantity`: a non-positive quantity removes the entry; otherwise
      the quantity is set, not added to. */
  function UpdateQuantity(cart: Cart, id: string, q: int): (r: Cart)
    ensures q <= 0 ==> r == RemoveFromCart(cart, id)
    ensures q > 0 ==> |r| == |cart|
    ensures q > 0 ==> forall i :: 0 <= i < |cart| ==>
              r[i].product == cart[i].product &&
              r[i].quantity == (if cart[i].product.id == id then q else cart[i].quantity)
    ensures q > 0 && !HasId(cart, id) ==> r == cart
  {
    if q <= 0 then RemoveFromCart(cart, id)
    else SetMatching(cart, id, q)
  }

  /** `clearCart`: the empty cart, whose totals are both zero. */
  function ClearCart(): (r: Cart)
    ensures CartTotal(r) == 0 && CartItemsCount(r) == 0
  {
    []
  }

  /** What one entry contributes to the cart total. */
  function LineTotal(item: CartItem): int {
    item.product.price * item.quantity
  }

  /** `Array.prototype.reduce` with an additive step: starting from `acc`,
      add each entry's share from the first entry to the last. */
  function Reduce(acc: int, cart: Cart, share: CartItem -> int): int
    decreases |cart|
  {
    if cart == [] then acc else Reduce(acc + share(cart[0]), cart[1..], share)
  }

  /** The running total can be pulled out of the fold. */
  lemma {:induction false} ReduceShift(acc: int, cart: Cart, share: CartItem -> int)
    ensures Reduce(acc, cart, share) == acc + Reduce(0, cart, share)
    decreases |cart|
  {
    if cart != [] {
      ReduceShift(acc + share(cart[0]), cart[1..], share);
      ReduceShift(share(cart[0]), cart[1..], share);
    }
  }

  /** What one entry contributes to the item count. */
  function Quantity(item: CartItem): int {
    item.quantity
  }

  /** `cartTotal`: the sum of price times quantity over the entries, which is
      what the source's left-to-right `reduce` from 0 computes. */
  function CartTotal(cart: Cart): (r: int)
    ensures r == Reduce(0, cart, LineTotal)
    decreases |cart|
  {
    if cart == [] then 0
    else
      ReduceShift(LineTotal(cart[0]), cart[1..], LineTotal);
      LineTotal(cart[0]) + CartTotal(cart[1..])
  }

  /** `cartItemsCount`: the sum of the quantities, which is what the
      source's `reduce` from 0 computes. */
  function CartItemsCount(cart: Cart): (r: int)
    ensures r == Reduce(0, cart, Quantity)
    decreases |cart|
  {
    if cart == [] then 0
    else
      ReduceShift(Quantity(cart[0]), cart[1..], Quantity);
      cart[0].quantity + CartItemsCount(cart[1..])
  }

  /** With positive quantities the item count is at least the number of
      entries, so it is zero exactly for the empty cart. */
  lemma {:induction false} CountBoundsEntries(cart: Cart)
    requires PositiveQuantities(cart)
    ensures CartItemsCount(cart) >= |cart|
    ensures CartItemsCount(cart) == 0 <==> cart == []
    decreases |cart|
  {
    if cart != [] {
      CountBoundsEntries(cart[1..]);
    }
  }

  /** With non-negative prices and quantities the total is never negative. */
  lemma {:induction false} TotalNonNegative(cart: Cart)
    requires forall i :: 0 <= i < |cart| ==> cart[i].product.price >= 0 && cart[i].quantity >= 0
    ensures CartTotal(cart) >= 0
    decreases |cart|
  {
    if cart != [] {
      TotalNonNegative(cart[1..]);
      assert LineTotal(cart[0]) >= 0;
    }
  }

  // ---------------------------------------------------------------------
  // Totals are additive.

  lemma {:induction false} TotalsAppend(a: Cart, b: Cart)
    ensures CartTotal(a + b) == CartTotal(a) + CartTotal(b)
    ensures CartItemsCount(a + b) == CartItemsCount(a) + CartItemsCount(b)
    decreases |a|
  {
    if a == [] {
      assert a + b == b;
    } else {
      assert (a + b)[1..] == a[1..] + b;
      TotalsAppend(a[1..], b);
    }
  }

  /** Replacing one entry changes each total by exactly the difference
      between the new and the old entry. */
  lemma {:induction false} TotalsReplace(cart: Cart, k: nat, item: CartItem)
    requires k < |cart|
    ensures CartTotal(cart[k := item]) == CartTotal(cart) - LineTotal(cart[k]) + LineTotal(item)
    ensures CartItemsCount(cart[k := item]) == CartItemsCount(cart) - cart[k].quantity + item.quantity
    decreases k
  {
    if k > 0 {
      assert cart[k := item][1..] == cart[1..][k - 1 := item];
      TotalsReplace(cart[1..], k - 1, item);
    }
  }

  /** Dropping one entry lowers each total by exactly that entry's share. */
  lemma TotalsDrop(cart: Cart, k: nat)
    requires k < |cart|
    ensures CartTotal(cart[..k] + cart[k + 1..]) == CartTotal(cart) - LineTotal(cart[k])
    ensures CartItemsCount(cart[..k] + cart[k + 1..]) == CartItemsCount(cart) - cart[k].quantity
  {
    assert cart == cart[..k] + ([cart[k]] + cart[k + 1..]);
    TotalsAppend(cart[..k], [cart[k]] + cart[k + 1..]);
    TotalsAppend(cart[..k], cart[k + 1..]);
    assert ([cart[k]] + cart[k + 1..])[1..] == cart[k + 1..];
  }

  // ---------------------------------------------------------------------
  // Effects of each operation on a cart without duplicate ids.

  /** In a cart without duplicates, `find` locates the only matching entry. */
  lemma FindIsOnlyMatch(cart: Cart, id: string, k: nat)
    requires UniqueIds(cart) && Find(cart, id) == Some(k)
    ensures forall i :: 0 <= i < |cart| && i != k ==> cart[i].product.id != id
  {
  }

  /** The merge branch of `addToCart` touches exactly the found entry. */
  lemma IncrementIsReplace(cart: Cart, id: string, k: nat)
    requires UniqueIds(cart) && Find(cart, id) == Some(k)
    ensures IncrementMatching(cart, id) == cart[k := cart[k].(quantity := cart[k].quantity + 1)]
  {
    FindIsOnlyMatch(cart, id, k);
  }

  /** Adding keeps ids unique and quantities positive. */
  lemma AddPreservesWellFormed(cart: Cart, p: Product)
    requires WellFormed(cart)
    ensures WellFormed(AddToCart(cart, p))
  {
    var r := AddToCart(cart, p);
    if !HasId(cart, p.id) {
      forall i, j | 0 <= i < j < |r|
        ensures r[i].product.id != r[j].product.id
      {
        if j == |cart| {
          assert r[i] == cart[i];
        } else {
          assert r[i] == cart[i] && r[j] == cart[j];
        }
      }
    }
  }

  /** The unit price an add charges: the price stored in the entry it merges
      into, or the product's own price when it is appended. */
  function StoredPrice(cart: Cart, p: Product): int {
    match Find(cart, p.id)
    case Some(k) => cart[k].product.price
    case None => p.price
  }

  /** Each add raises the item count by one and the total by the stored unit
      price. */
  lemma AddToCartTotals(cart: Cart, p: Product)
    requires UniqueIds(cart)
    ensures CartItemsCount(AddToCart(cart, p)) == CartItemsCount(cart) + 1
    ensures CartTotal(AddToCart(cart, p)) == CartTotal(cart) + StoredPrice(cart, p)
  {
    match Find(cart, p.id) {
      case Some(k) => MergeTotals(cart, p.id, k);
      case None =>
        TotalsAppend(cart, [CartItem(p, 1)]);
    }
  }

  lemma MergeTotals(cart: Cart, id: string, k: nat)
    requires UniqueIds(cart) && Find(cart, id) == Some(k)
    ensures CartItemsCount(IncrementMatching(cart, id)) == CartItemsCount(cart) + 1
    ensures CartTotal(IncrementMatching(cart, id)) == CartTotal(cart) + cart[k].product.price
  {
    var bumped := cart[k].(quantity := cart[k].quantity + 1);
    assert IncrementMatching(cart, id) == cart[k := bumped] by {
      IncrementIsReplace(cart, id, k);
    }
    TotalsReplace(cart, k, bumped);
    BumpLine(cart[k]);
  }

  lemma BumpLine(item: CartItem)
    ensures LineTotal(item.(quantity := item.quantity + 1)) == LineTotal(item) + item.product.price
  {
    var pr, q := item.product.price, item.quantity;
    assert pr * (q + 1) == pr * q + pr;
  }

  /** `n` successive adds of the same product. */
  function AddRepeatedly(cart: Cart, p: Product, n: nat): Cart
    decreases n
  {
    if n == 0 then cart else AddToCart(AddRepeatedly(cart, p, n - 1), p)
  }

  /** Adding a product whose line was appended last merges into that line. */
  lemma MergeIntoLast(cart: Cart, p: Product, n: int)
    requires !HasId(cart, p.id)
    ensures AddToCart(cart + [CartItem(p, n)], p) == cart + [CartItem(p, n + 1)]
  {
    var prev := cart + [CartItem(p, n)];
    assert prev[|cart|].product.id == p.id;
    var r := IncrementMatching(prev, p.id);
    assert AddToCart(prev, p) == r;
    var want := cart + [CartItem(p, n + 1)];
    forall i | 0 <= i < |prev|
      ensures r[i] == want[i]
    {
      if i < |cart| {
        assert prev[i] == cart[i];
        assert cart[i].product.id != p.id;
      }
    }
  }

  /** Adding a product `n` times to a cart that lacks it yields one new entry,
      at the end, holding `n` units; the earlier entries are untouched. */
  lemma {:induction false} AddRepeatedlyMerges(cart: Cart, p: Product, n: nat)
    requires !HasId(cart, p.id) && n >= 1
    ensures AddRepeatedly(cart, p, n) == cart + [CartItem(p, n)]
    decreases n
  {
    if n > 1 {
      AddRepeatedlyMerges(cart, p, n - 1);
      MergeIntoLast(cart, p, n - 1);
    } else {
      assert Find(cart, p.id).None?;
    }
  }

  /** The test `removeFromCart` uses keeps uniqueness and positivity. */
  lemma {:induction false} RemovePreservesWellFormed(cart: Cart, id: string)
    requires WellFormed(cart)
    ensures WellFormed(RemoveFromCart(cart, id))
  {
    var r := RemoveFromCart(cart, id);
    SubsequencePreservesUnique(r, cart);
    assert forall i :: 0 <= i < |r| ==> r[i] in cart;
  }

  lemma {:induction false} SubsequencePreservesUnique(a: Cart, b: Cart)
    requires Seqs.IsSubsequence(a, b) && UniqueIds(b)
    ensures UniqueIds(a)
    decreases |b|
  {
    if a != [] {
      if a[0] == b[0] {
        SubsequencePreservesUnique(a[1..], b[1..]);
        SubsequenceMembers(a[1..], b[1..]);
        forall j | 0 < j < |a|
          ensures a[0].product.id != a[j].product.id
        {
          assert a[j] == a[1..][j - 1];
          var m :| 0 <= m < |b[1..]| && b[1..][m] == a[j];
          assert b[m + 1] == a[j];
        }
      } else {
        SubsequencePreservesUnique(a, b[1..]);
      }
    }
  }

  lemma {:induction false} SubsequenceMembers(a: Cart, b: Cart)
    requires Seqs.IsSubsequence(a, b)
    ensures forall i :: 0 <= i < |a| ==> exists m :: 0 <= m < |b| && b[m] == a[i]
    decreases |b|
  {
    if a != [] {
      if a[0] == b[0] {
        SubsequenceMembers(a[1..], b[1..]);
        forall i | 0 < i < |a|
          ensures exists m :: 0 <= m < |b| && b[m] == a[i]
        {
          assert a[i] == a[1..][i - 1];
          var m :| 0 <= m < |b[1..]| && b[1..][m] == a[i];
          assert b[m + 1] == a[i];
        }
        assert b[0] == a[0];
      } else {
        SubsequenceMembers(a, b[1..]);
        forall i | 0 <= i < |a|
          ensures exists m :: 0 <= m < |b| && b[m] == a[i]
        {
          var m :| 0 <= m < |b[1..]| && b[1..][m] == a[i];
          assert b[m + 1] == a[i];
        }
      }
    }
  }

  /** Removing an id lowers the totals by exactly the removed entry's share,
      and removing it again changes nothing. */
  lemma RemoveFromCartTotals(cart: Cart, id: string, k: nat)
    requires UniqueIds(cart) && Find(cart, id) == Some(k)
    ensures RemoveFromCart(cart, id) == cart[..k] + cart[k + 1..]
    ensures CartTotal(RemoveFromCart(cart, id)) == CartTotal(cart) - LineTotal(cart[k])
    ensures CartItemsCount(RemoveFromCart(cart, id)) == CartItemsCount(cart) - cart[k].quantity
  {
    FindIsOnlyMatch(cart, id, k);
    var keep := NotId(id);
    assert cart == cart[..k] + ([cart[k]] + cart[k + 1..]);
    Seqs.FilterAppend(cart[..k], [cart[k]] + cart[k + 1..], keep);
    Seqs.FilterAppend([cart[k]], cart[k + 1..], keep);
    assert Seqs.Filter(cart[..k], keep) == cart[..k];
    assert Seqs.Filter(cart[k + 1..], keep) == cart[k + 1..];
    assert Seqs.Filter([cart[k]], keep) == [];
    TotalsDrop(cart, k);
  }

  /** Removal is idempotent. */
  lemma RemoveIdempotent(cart: Cart, id: string)
    ensures RemoveFromCart(RemoveFromCart(cart, id), id) == RemoveFromCart(cart, id)
  {
  }

  /** A positive update keeps ids unique and quantities positive. */
  lemma UpdatePreservesWellFormed(cart: Cart, id: string, q: int)
    requires WellFormed(cart)
    ensures WellFormed(UpdateQuantity(cart, id, q))
  {
    if q <= 0 {
      RemovePreservesWellFormed(cart, id);
    }
  }

  /** A positive update replaces the found entry's quantity: the totals move
      by the difference between the new and the old quantity. */
  lemma UpdateQuantityTotals(cart: Cart, id: string, q: int, k: nat)
    requires UniqueIds(cart) && Find(cart, id) == Some(k) && q > 0
    ensures UpdateQuantity(cart, id, q) == cart[k := cart[k].(quantity := q)]
    ensures CartTotal(UpdateQuantity(cart, id, q)) ==
              CartTotal(cart) - LineTotal(cart[k]) + cart[k].product.price * q
    ensures CartItemsCount(UpdateQuantity(cart, id, q)) == CartItemsCount(cart) - cart[k].quantity + q
  {
    FindIsOnlyMatch(cart, id, k);
    TotalsReplace(cart, k, cart[k].(quantity := q));
  }
}
