/** The cart page (app/cart/page.tsx): a four-step checkout machine layered
    over the shop cart. The page owns the step, the customer form and the
    order number; the cart belongs to the shop and is changed only through
    the shop's operations. A user can only fire the handlers the current
    view renders, so an event the view does not offer changes nothing. */
module Checkout {
  import opened Types
  import ShopCart

  datatype Step = CartStep | InfoStep | PaymentStep | Confirmed

  datatype CustomerInfo = CustomerInfo(fullName: string, email: string, phone: string, address: string)

  const EmptyInfo: CustomerInfo := CustomerInfo("", "", "", "")

  datatype Field = FullName | Email | Phone | Address

  /** One form field's `onChange`: replace that field, keep the others. */
  function SetField(info: CustomerInfo, f: Field, v: string): (r: CustomerInfo)
    ensures GetField(r, f) == v
    ensures forall g :: g != f ==> GetField(r, g) == GetField(info, g)
  {
    match f
    case FullName => info.(fullName := v)
    case Email => info.(email := v)
    case Phone => info.(phone := v)
    case Address => info.(address := v)
  }

  function GetField(info: CustomerInfo, f: Field): string {
    match f
    case FullName => info.fullName
    case Email => info.email
    case Phone => info.phone
    case Address => info.address
  }

  /** The browser lets the form submit only when every `required` field is
      non-empty; nothing is trimmed. */
  predicate FormComplete(info: CustomerInfo) {
    forall f :: GetField(info, f) != ""
  }

  // ---------------------------------------------------------------------
  // The order number.

  const OrderPrefix: string := "ORD-"

  /** Length of the random part: `substr(2, 9)`. */
  const SuffixLength: nat := 9

  predicate IsBase36Lower(c: char) {
    ('0' <= c <= '9') || ('a' <= c <= 'z')
  }

  predicate IsBase36Upper(c: char) {
    ('0' <= c <= '9') || ('A' <= c <= 'Z')
  }

  /** What `Math.random().toString(36)` produces: "0." (or "0" for zero)
      followed by lower-case base-36 digits. */
  predicate IsRandomBase36(random: string) {
    forall i :: 2 <= i < |random| ==> IsBase36Lower(random[i])
  }

  /** `String.prototype.substr(start, length)` for non-negative arguments:
      clamped to the string. */
  function Substr(s: string, start: nat, length: nat): (r: string)
    ensures |r| <= length
    ensures |r| == (if start >= |s| then 0 else if start + length >= |s| then |s| - start else length)
    ensures forall i :: 0 <= i < |r| ==> start + i < |s| && r[i] == s[start + i]
  {
    if start >= |s| then ""
    else if start + length >= |s| then s[start..]
    else s[start..start + length]
  }

  /** `toUpperCase` on the characters that can occur here: only the ASCII
      letters a-z change. */
  function UpperChar(c: char): char {
    if 'a' <= c <= 'z' then (c as int - 32) as char else c
  }

  function LowerChar(c: char): char {
    if 'A' <= c <= 'Z' then (c as int + 32) as char else c
  }

  /** `toUpperCase` restricted to ASCII: each lower-case letter becomes the
      upper-case letter that lower-cases back to it; all else is kept. */
  function ToUpper(s: string): (r: string)
    ensures |r| == |s|
    ensures forall i :: 0 <= i < |s| && 'a' <= s[i] <= 'z' ==> 'A' <= r[i] <= 'Z' && LowerChar(r[i]) == s[i]
    ensures forall i :: 0 <= i < |s| && !('a' <= s[i] <= 'z') ==> r[i] == s[i]
    ensures forall i :: 0 <= i < |s| && IsBase36Lower(s[i]) ==> IsBase36Upper(r[i]) && LowerChar(r[i]) == s[i]
  {
    seq(|s|, i requires 0 <= i < |s| => UpperChar(s[i]))
  }

  /** Upper-casing works character by character. */
  lemma ToUpperAt(s: string)
    ensures forall i :: 0 <= i < |s| ==> ToUpper(s)[i] == UpperChar(s[i])
  {
  }

  /** The shape of every order number the page shows. */
  predicate IsOrderNumber(s: string) {
    |OrderPrefix| <= |s| <= |OrderPrefix| + SuffixLength &&
    s[..|OrderPrefix|] == OrderPrefix &&
    forall i :: |OrderPrefix| <= i < |s| ==> IsBase36Upper(s[i])
  }

  /** `'ORD-' + random.substr(2, 9).toUpperCase()`, where `random` is the
      string `Math.random().toString(36)` produced. */
  function OrderNumber(random: string): (r: string)
    ensures |OrderPrefix| <= |r| <= |OrderPrefix| + SuffixLength
    ensures r[..|OrderPrefix|] == OrderPrefix
    ensures |random| >= 2 + SuffixLength ==> |r| == |OrderPrefix| + SuffixLength
    ensures forall i :: |OrderPrefix| <= i < |r| ==>
              2 + i - |OrderPrefix| < |random| && r[i] == UpperChar(random[2 + i - |OrderPrefix|])
    ensures IsRandomBase36(random) ==> IsOrderNumber(r)
  {
    var digits := Substr(random, 2, SuffixLength);
    var upper := ToUpper(digits);
    ToUpperAt(digits);
    OrderNumberShape(random, digits, upper);
    OrderPrefix + upper
  }

  /** The facts `OrderNumber` promises, about the string it builds. */
  lemma OrderNumberShape(random: string, digits: string, upper: string)
    requires digits == Substr(random, 2, SuffixLength)
    requires |upper| == |digits| && forall j :: 0 <= j < |digits| ==> upper[j] == UpperChar(digits[j])
    ensures var r := OrderPrefix + upper;
            |OrderPrefix| <= |r| <= |OrderPrefix| + SuffixLength
    ensures var r := OrderPrefix + upper; r[..|OrderPrefix|] == OrderPrefix
    ensures var r := OrderPrefix + upper;
            |random| >= 2 + SuffixLength ==> |r| == |OrderPrefix| + SuffixLength
    ensures var r := OrderPrefix + upper;
            forall i :: |OrderPrefix| <= i < |r| ==>
              2 + i - |OrderPrefix| < |random| && r[i] == UpperChar(random[2 + i - |OrderPrefix|])
    ensures IsRandomBase36(random) ==> IsOrderNumber(OrderPrefix + upper)
  {
    var n := |OrderPrefix|;
    var r := OrderPrefix + upper;
    assert r[..n] == OrderPrefix;
    forall i | n <= i < |r|
      ensures 2 + i - n < |random| && r[i] == UpperChar(random[2 + i - n])
    {
      assert r[i] == upper[i - n];
      assert digits[i - n] == random[2 + i - n];
    }
    if IsRandomBase36(random) {
      assert forall j :: 0 <= j < |digits| ==> IsBase36Lower(digits[j]);
    }
  }

  /** The random digits are recoverable from the order number: lower-casing
      its suffix gives back the nine characters after "0." (fewer when the
      random string is short). */
  lemma OrderNumberKeepsDigits(random: string)
    requires IsRandomBase36(random)
    ensures var r := OrderNumber(random);
            |r| - |OrderPrefix| == (if |random| >= 2 + SuffixLength then SuffixLength
                                    else if |random| >= 2 then |random| - 2 else 0)
    ensures var r := OrderNumber(random);
            forall i :: |OrderPrefix| <= i < |r| ==> LowerChar(r[i]) == random[2 + i - |OrderPrefix|]
  {
    var r := OrderNumber(random);
    var n := |OrderPrefix|;
    forall i | n <= i < |r|
      ensures LowerChar(r[i]) == random[2 + i - n]
    {
      UpperThenLower(random[2 + i - n]);
    }
  }

  /** Lower-casing undoes upper-casing on a base-36 digit. */
  lemma UpperThenLower(c: char)
    requires IsBase36Lower(c)
    ensures LowerChar(UpperChar(c)) == c
  {
  }

  // ---------------------------------------------------------------------
  // The page.

  datatype Page = Page(step: Step, info: CustomerInfo, orderNumber: string)

  /** What a fresh visit to the page starts from. */
  const InitialPage: Page := Page(CartStep, EmptyInfo, "")

  /** The page together with the shop cart it shows. */
  datatype Screen = Screen(page: Page, cart: Cart)

  /** The handlers the page wires to its buttons and form. The quantity and
      remove buttons belong to one rendered cart line, named by its index. */
  datatype Event =
    | Checkout
    | Edit(field: Field, value: string)
    | SubmitInfo
    | BackToCart
    | BackToInfo
    | PlaceOrder(random: string)
    | Decrement(line: nat)
    | Increment(line: nat)
    | Remove(line: nat)

  /** The steps the page can move between; staying put is always possible. */
  predicate Edge(from: Step, to: Step) {
    from == to ||
    (from == CartStep && to == InfoStep) ||
    (from == InfoStep && to == CartStep) ||
    (from == InfoStep && to == PaymentStep) ||
    (from == PaymentStep && to == InfoStep) ||
    (from == PaymentStep && to == Confirmed)
  }

  /** The "-" button: `updateQuantity(id, quantity - 1)`. */
  function DecrementLine(cart: Cart, k: nat): (r: Cart)
    requires k < |cart|
    ensures cart[k].quantity <= 1 ==> r == ShopCart.RemoveFromCart(cart, cart[k].product.id)
    ensures cart[k].quantity > 1 ==>
              |r| == |cart| && r[k] == cart[k].(quantity := cart[k].quantity - 1) &&
              forall i :: 0 <= i < |cart| && cart[i].product.id != cart[k].product.id ==> r[i] == cart[i]
    ensures cart[k].quantity > 1 ==>
              forall i :: 0 <= i < |cart| && cart[i].product.id == cart[k].product.id ==>
                r[i] == cart[i].(quantity := cart[k].quantity - 1)
  {
    ShopCart.UpdateQuantity(cart, cart[k].product.id, cart[k].quantity - 1)
  }

  /** The "+" button: `updateQuantity(id, quantity + 1)`. */
  function IncrementLine(cart: Cart, k: nat): (r: Cart)
    requires k < |cart|
    ensures cart[k].quantity >= 0 ==>
              |r| == |cart| && r[k] == cart[k].(quantity := cart[k].quantity + 1) &&
              forall i :: 0 <= i < |cart| && cart[i].product.id != cart[k].product.id ==> r[i] == cart[i]
    ensures cart[k].quantity >= 0 ==>
              forall i :: 0 <= i < |cart| && cart[i].product.id == cart[k].product.id ==>
                r[i] == cart[i].(quantity := cart[k].quantity + 1)
    ensures cart[k].quantity < 0 ==> r == ShopCart.RemoveFromCart(cart, cart[k].product.id)
  {
    ShopCart.UpdateQuantity(cart, cart[k].product.id, cart[k].quantity + 1)
  }

  /** One user event on the page. */
  function Dispatch(s: Screen, e: Event): (r: Screen)
    ensures Edge(s.page.step, r.page.step)
    ensures s.page.step == Confirmed ==> r == s
    ensures !e.Edit? ==> r.page.info == s.page.info
    ensures s.page.step == CartStep && r.page.step == InfoStep ==> |s.cart| > 0
    ensures s.page.step == InfoStep && r.page.step == PaymentStep ==> FormComplete(s.page.info)
    ensures s.page.step != Confirmed && r.page.step == Confirmed ==>
              r.cart == [] && e.PlaceOrder? && r.page.orderNumber == OrderNumber(e.random)
    ensures s.page.step != CartStep && !(s.page.step == PaymentStep && r.page.step == Confirmed) ==>
              r.cart == s.cart
    ensures s.page.step == InfoStep && e.Edit? ==>
              r == s.(page := s.page.(info := SetField(s.page.info, e.field, e.value)))
    ensures s.page.step == InfoStep && e.BackToCart? ==> r == s.(page := s.page.(step := CartStep))
    ensures s.page.step == PaymentStep && e.BackToInfo? ==> r == s.(page := s.page.(step := InfoStep))
    ensures s.page.step == CartStep && e.Decrement? && e.line < |s.cart| ==>
              r == s.(cart := DecrementLine(s.cart, e.line))
    ensures s.page.step == CartStep && e.Increment? && e.line < |s.cart| ==>
              r == s.(cart := IncrementLine(s.cart, e.line))
    ensures s.page.step == CartStep && e.Remove? && e.line < |s.cart| ==>
              r == s.(cart := ShopCart.RemoveFromCart(s.cart, s.cart[e.line].product.id))
  {
    var p := s.page;
    match p.step
    case CartStep =>
      (match e
       case Checkout =>
         if |s.cart| == 0 then s else s.(page := p.(step := InfoStep))
       case Decrement(k) =>
         if k < |s.cart| then s.(cart := DecrementLine(s.cart, k)) else s
       case Increment(k) =>
         if k < |s.cart| then s.(cart := IncrementLine(s.cart, k)) else s
       case Remove(k) =>
         if k < |s.cart| then s.(cart := ShopCart.RemoveFromCart(s.cart, s.cart[k].product.id)) else s
       case _ => s)
    case InfoStep =>
      (match e
       case Edit(f, v) => s.(page := p.(info := SetField(p.info, f, v)))
       case SubmitInfo =>
         if FormComplete(p.info) then s.(page := p.(step := PaymentStep)) else s
       case BackToCart => s.(page := p.(step := CartStep))
       case _ => s)
    case PaymentStep =>
      (match e
       case BackToInfo => s.(page := p.(step := InfoStep))
       case PlaceOrder(random) =>
         Screen(p.(step := Confirmed, orderNumber := OrderNumber(random)), ShopCart.ClearCart())
       case _ => s)
    case Confirmed => s
  }

  /** A run of events. */
  function Run(s: Screen, events: seq<Event>): Screen
    decreases |events|
  {
    if events == [] then s else Run(Dispatch(s, events[0]), events[1..])
  }

  /** Events whose inputs come from where the source takes them. */
  predicate WellFormedEvent(e: Event) {
    e.PlaceOrder? ==> IsRandomBase36(e.random)
  }

  /** What holds of every screen the page can show: past the cart step the
      cart is non-empty; at payment the form is complete; once confirmed the
      cart is empty and a well-shaped order number is shown. */
  predicate Consistent(s: Screen) {
    (s.page.step == InfoStep || s.page.step == PaymentStep ==> |s.cart| > 0) &&
    (s.page.step == PaymentStep ==> FormComplete(s.page.info)) &&
    (s.page.step == Confirmed ==> s.cart == [] && IsOrderNumber(s.page.orderNumber))
  }

  /** Every event keeps the page consistent. */
  lemma DispatchKeepsConsistent(s: Screen, e: Event)
    requires Consistent(s) && WellFormedEvent(e)
    ensures Consistent(Dispatch(s, e))
  {
  }

  /** A fresh visit is consistent whatever the cart holds, and so is every
      screen reached from it. */
  lemma {:induction false} RunKeepsConsistent(s: Screen, events: seq<Event>)
    requires Consistent(s)
    requires forall i :: 0 <= i < |events| ==> WellFormedEvent(events[i])
    ensures Consistent(Run(s, events))
    decreases |events|
  {
    if events != [] {
      DispatchKeepsConsistent(s, events[0]);
      RunKeepsConsistent(Dispatch(s, events[0]), events[1..]);
    }
  }

  lemma FreshVisitConsistent(cart: Cart)
    ensures Consistent(Screen(InitialPage, cart))
  {
  }

  /** From the cart step, checkout with an empty cart stays put; with a
      non-empty cart it moves to the form. */
  lemma CheckoutGuard(s: Screen)
    requires s.page.step == CartStep
    ensures |s.cart| == 0 ==> Dispatch(s, Checkout) == s
    ensures |s.cart| > 0 ==> Dispatch(s, Checkout).page == s.page.(step := InfoStep)
    ensures Dispatch(s, Checkout).cart == s.cart
  {
  }

  /** Submitting the form moves to payment exactly when every field is
      filled in. */
  lemma SubmitInfoIff(s: Screen)
    requires s.page.step == InfoStep
    ensures Dispatch(s, SubmitInfo).page.step == PaymentStep <==> FormComplete(s.page.info)
    ensures Dispatch(s, SubmitInfo).page.info == s.page.info
  {
  }

  /** Going back keeps what was typed: back from payment then forward again
      returns to the very same screen, and so does back from the form then
      checkout again. */
  lemma BackAndForthKeepsInfo(s: Screen)
    requires Consistent(s)
    ensures s.page.step == PaymentStep ==> Dispatch(s, BackToInfo).page == s.page.(step := InfoStep)
    ensures s.page.step == PaymentStep ==> Dispatch(Dispatch(s, BackToInfo), SubmitInfo) == s
    ensures s.page.step == InfoStep ==> Dispatch(s, BackToCart).page == s.page.(step := CartStep)
    ensures s.page.step == InfoStep ==> Dispatch(Dispatch(s, BackToCart), Checkout) == s
  {
  }

  /** Placing an order confirms it, empties the cart and so zeroes both
      totals, and shows an "ORD-" number. */
  lemma PlaceOrderEmptiesCart(s: Screen, random: string)
    requires s.page.step == PaymentStep && IsRandomBase36(random)
    ensures var r := Dispatch(s, PlaceOrder(random));
            r.page.step == Confirmed && r.cart == [] &&
            ShopCart.CartTotal(r.cart) == 0 && ShopCart.CartItemsCount(r.cart) == 0 &&
            IsOrderNumber(r.page.orderNumber)
  {
  }

  /** The confirmed view offers no handler: no run of events leaves it. */
  lemma {:induction false} ConfirmedIsTerminal(s: Screen, events: seq<Event>)
    requires s.page.step == Confirmed
    ensures Run(s, events) == s
    decreases |events|
  {
    if events != [] {
      ConfirmedIsTerminal(Dispatch(s, events[0]), events[1..]);
    }
  }

  /** "-" on a line holding one unit removes that line. */
  lemma DecrementOnOneRemoves(cart: Cart, k: nat)
    requires k < |cart| && cart[k].quantity == 1
    ensures DecrementLine(cart, k) == ShopCart.RemoveFromCart(cart, cart[k].product.id)
    ensures ShopCart.UniqueIds(cart) ==> |DecrementLine(cart, k)| == |cart| - 1
  {
    if ShopCart.UniqueIds(cart) {
      var id := cart[k].product.id;
      assert ShopCart.HasId(cart, id);
      var j := ShopCart.Find(cart, id).value;
      assert j == k;
      ShopCart.RemoveFromCartTotals(cart, id, k);
    }
  }

  /** "+" on a line of a well-formed cart does exactly what adding that
      line's stored product does: one more unit on that line only. */
  lemma IncrementIsAdd(cart: Cart, k: nat)
    requires ShopCart.WellFormed(cart) && k < |cart|
    ensures IncrementLine(cart, k) == ShopCart.AddToCart(cart, cart[k].product)
    ensures IncrementLine(cart, k) == cart[k := cart[k].(quantity := cart[k].quantity + 1)]
  {
    var id := cart[k].product.id;
    assert ShopCart.HasId(cart, id);
    var j := ShopCart.Find(cart, id).value;
    assert j == k;
    ShopCart.IncrementIsReplace(cart, id, k);
    ShopCart.UpdateQuantityTotals(cart, id, cart[k].quantity + 1, k);
  }

  /** The payment step's order summary. */
  datatype Summary = Summary(subtotal: int, total: int)

  /** Subtotal and total are both the cart total: no tax, no shipping. */
  function PaymentSummary(cart: Cart): (r: Summary)
    ensures r.total == r.subtotal
    ensures r.subtotal == ShopCart.CartTotal(cart)
  {
    var subtotal := ShopCart.CartTotal(cart);
    Summary(subtotal, subtotal)
  }
}
