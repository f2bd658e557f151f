/** The cart drawer (`Cart.jsx`): the three totals folded over
    `currentUser.cartDetails`, the per-line totals, which parts of the drawer
    are rendered, and the store events its buttons emit. The drawer itself
    never changes the cart. */
module Cart {
  import opened Wrappers
  import opened Store

  // ---------------------------------------------------------------------
  // Folds

  /** `items.reduce((total, item) => total + f(item), acc)`: a left fold. */
  function Reduce(f: CartItem -> int, items: seq<CartItem>, acc: int): int
  {
    if items == [] then acc else Reduce(f, items[1..], acc + f(items[0]))
  }

  /** Reference definition: the sum of `f` over the items. */
  function Sum(f: CartItem -> int, items: seq<CartItem>): int
  {
    if items == [] then 0 else f(items[0]) + Sum(f, items[1..])
  }

  /** The fold from `acc` adds exactly the sum of the items to `acc`. */
  lemma {:induction false} ReduceIsSum(f: CartItem -> int, items: seq<CartItem>, acc: int)
    ensures Reduce(f, items, acc) == acc + Sum(f, items)
  {
    if items != [] {
      ReduceIsSum(f, items[1..], acc + f(items[0]));
    }
  }

  lemma {:induction false} SumConcat(f: CartItem -> int, a: seq<CartItem>, b: seq<CartItem>)
    ensures Sum(f, a + b) == Sum(f, a) + Sum(f, b)
  {
    if a == [] {
      assert a + b == b;
    } else {
      assert (a + b)[1..] == a[1..] + b;
      SumConcat(f, a[1..], b);
    }
  }

  lemma {:induction false} SumPermutation(f: CartItem -> int, a: seq<CartItem>, b: seq<CartItem>)
    requires multiset(a) == multiset(b)
    ensures Sum(f, a) == Sum(f, b)
  {
    if a == [] {
      assert |multiset(b)| == 0;
    } else {
      var x := a[0];
      assert x in multiset(b);
      var i :| 0 <= i < |b| && b[i] == x;
      var rest := b[..i] + b[i + 1..];
      assert b == b[..i] + [x] + b[i + 1..];
      SumConcat(f, b[..i] + [x], b[i + 1..]);
      SumConcat(f, b[..i], [x]);
      SumConcat(f, b[..i], b[i + 1..]);
      assert a == [x] + a[1..];
      assert multiset(a) == multiset{x} + multiset(a[1..]);
      assert multiset(b) == multiset(b[..i]) + multiset{x} + multiset(b[i + 1..]);
      assert multiset(rest) == multiset(b[..i]) + multiset(b[i + 1..]);
      assert multiset(a[1..]) == multiset(a) - multiset{x};
      assert multiset(rest) == multiset(b) - multiset{x};
      SumPermutation(f, a[1..], rest);
    }
  }

  lemma {:induction false} SumNonNegative(f: CartItem -> int, items: seq<CartItem>)
    requires forall i :: 0 <= i < |items| ==> f(items[i]) >= 0
    ensures Sum(f, items) >= 0
  {
    if items != [] {
      SumNonNegative(f, items[1..]);
    }
  }

  // ---------------------------------------------------------------------
  // Line amounts

  function Quantity(item: CartItem): int
  {
    item.quantity
  }

  /** A line at its maximum retail price: `item.quantity * item.price.mrp`. */
  function OriginalLineTotal(item: CartItem): int
  {
    item.quantity * item.price.mrp
  }

  /** The total shown on each card: `data.quantity * data.price.cost`. */
  function LineTotal(item: CartItem): int
  {
    item.quantity * item.price.cost
  }

  /** What a line saves against its maximum retail price. */
  function LineSaving(item: CartItem): int
  {
    item.quantity * (item.price.mrp - item.price.cost)
  }

  // ---------------------------------------------------------------------
  // Totals

  /** `totalQuantity`: the number of units in the cart. */
  function TotalQuantity(cart: seq<CartItem>): (r: int)
    ensures r == Sum(Quantity, cart)
    ensures cart == [] ==> r == 0
  {
    ReduceIsSum(Quantity, cart, 0);
    Reduce(Quantity, cart, 0)
  }

  /** `totalOGPrice`: the cart at maximum retail prices. */
  function TotalOriginalPrice(cart: seq<CartItem>): (r: int)
    ensures r == Sum(OriginalLineTotal, cart)
    ensures cart == [] ==> r == 0
  {
    ReduceIsSum(OriginalLineTotal, cart, 0);
    Reduce(OriginalLineTotal, cart, 0)
  }

  /** `totalNewPrice`: the amount payable, the sum of the per-line totals. */
  function TotalPayable(cart: seq<CartItem>): (r: int)
    ensures r == Sum(LineTotal, cart)
    ensures cart == [] ==> r == 0
  {
    ReduceIsSum(LineTotal, cart, 0);
    Reduce(LineTotal, cart, 0)
  }

  lemma {:induction false} SavingsSum(cart: seq<CartItem>)
    ensures Sum(OriginalLineTotal, cart) - Sum(LineTotal, cart) == Sum(LineSaving, cart)
  {
    if cart != [] {
      var item := cart[0];
      assert LineSaving(item) == OriginalLineTotal(item) - LineTotal(item) by {
        assert item.quantity * (item.price.mrp - item.price.cost)
            == item.quantity * item.price.mrp - item.quantity * item.price.cost;
      }
      SavingsSum(cart[1..]);
    }
  }

  /** The discount shown in the order summary: `totalOGPrice - totalNewPrice`. */
  function Discount(cart: seq<CartItem>): (d: int)
    ensures d == Sum(LineSaving, cart)
  {
    SavingsSum(cart);
    TotalOriginalPrice(cart) - TotalPayable(cart)
  }

  /** Assumption: every line has a non-negative quantity and a cost no higher
      than its MRP. Nothing in the drawer checks either. */
  ghost predicate WellPriced(cart: seq<CartItem>)
  {
    forall i :: 0 <= i < |cart| ==> 0 <= cart[i].quantity && cart[i].price.cost <= cart[i].price.mrp
  }

  /** Assumption: every line holds at least one unit. The drawer does not
      check it; whatever keeps it is outside this model. */
  ghost predicate PositiveQuantities(cart: seq<CartItem>)
  {
    forall i :: 0 <= i < |cart| ==> cart[i].quantity >= 1
  }

  lemma DiscountNonNegative(cart: seq<CartItem>)
    requires WellPriced(cart)
    ensures Discount(cart) >= 0
    ensures TotalPayable(cart) <= TotalOriginalPrice(cart)
  {
    forall i | 0 <= i < |cart|
      ensures LineSaving(cart[i]) >= 0
    {
      var q, d := cart[i].quantity, cart[i].price.mrp - cart[i].price.cost;
      assert q >= 0 && d >= 0;
      assert q * d >= 0;
    }
    SumNonNegative(LineSaving, cart);
  }

  lemma {:induction false} QuantityCountsLines(cart: seq<CartItem>)
    requires PositiveQuantities(cart)
    ensures TotalQuantity(cart) >= |cart|
    ensures TotalQuantity(cart) == 0 <==> cart == []
  {
    if cart != [] {
      QuantityCountsLines(cart[1..]);
    }
  }

  lemma TotalsAdditive(a: seq<CartItem>, b: seq<CartItem>)
    ensures TotalQuantity(a + b) == TotalQuantity(a) + TotalQuantity(b)
    ensures TotalOriginalPrice(a + b) == TotalOriginalPrice(a) + TotalOriginalPrice(b)
    ensures TotalPayable(a + b) == TotalPayable(a) + TotalPayable(b)
    ensures Discount(a + b) == Discount(a) + Discount(b)
  {
    SumConcat(Quantity, a, b);
    SumConcat(OriginalLineTotal, a, b);
    SumConcat(LineTotal, a, b);
  }

  lemma TotalsOrderIndependent(a: seq<CartItem>, b: seq<CartItem>)
    requires multiset(a) == multiset(b)
    ensures TotalQuantity(a) == TotalQuantity(b)
    ensures TotalOriginalPrice(a) == TotalOriginalPrice(b)
    ensures TotalPayable(a) == TotalPayable(b)
    ensures Discount(a) == Discount(b)
  {
    SumPermutation(Quantity, a, b);
    SumPermutation(OriginalLineTotal, a, b);
    SumPermutation(LineTotal, a, b);
  }

  /** Two lines: A at 100/80 twice and B at 50/50 once. */
  lemma WorkedExample()
    ensures var cart := [CartItem("A", "A", "", Price(100, 80, 20), 2), CartItem("B", "B", "", Price(50, 50, 0), 1)];
      && TotalQuantity(cart) == 3 && TotalOriginalPrice(cart) == 250
      && TotalPayable(cart) == 210 && Discount(cart) == 40
  {
  }

  // ---------------------------------------------------------------------
  // The rendered drawer

  /** One card: the item it shows and the `Total: ₹…` figure on it. */
  datatype LineView = LineView(item: CartItem, total: int)

  /** The order summary panel. */
  datatype Summary = Summary(itemCount: int, originalPrice: int, discount: int, totalAmount: int)

  datatype CartView = CartView(
    scrollToTop: bool,
    emptyMessage: bool,
    lines: seq<LineView>,
    summary: Option<Summary>,
    checkout: bool,
    bottomActions: bool)

  function Lines(cart: seq<CartItem>): seq<LineView>
  {
    if cart == [] then [] else [LineView(cart[0], LineTotal(cart[0]))] + Lines(cart[1..])
  }

  function SumShown(lines: seq<LineView>): int
  {
    if lines == [] then 0 else lines[0].total + SumShown(lines[1..])
  }

  lemma {:induction false} LinesShowEachItem(cart: seq<CartItem>)
    ensures |Lines(cart)| == |cart|
    ensures forall i :: 0 <= i < |cart| ==> Lines(cart)[i] == LineView(cart[i], LineTotal(cart[i]))
    ensures SumShown(Lines(cart)) == TotalPayable(cart)
  {
    if cart != [] {
      LinesShowEachItem(cart[1..]);
      var ls := Lines(cart);
      assert ls[1..] == Lines(cart[1..]);
    }
  }

  /** What the drawer renders for a cart. */
  function Render(cart: seq<CartItem>): (v: CartView)
    ensures v.emptyMessage <==> |cart| == 0
    ensures v.scrollToTop <==> |cart| > 0
    ensures v.checkout <==> |cart| > 0
    ensures v.bottomActions <==> |cart| > 0
    ensures v.summary.Some? <==> |cart| > 0
    ensures |v.lines| == |cart|
    ensures forall i :: 0 <= i < |cart| ==> v.lines[i].item == cart[i] && v.lines[i].total == LineTotal(cart[i])
    ensures v.summary.Some? ==>
              && v.summary.value.itemCount == Sum(Quantity, cart)
              && v.summary.value.originalPrice == Sum(OriginalLineTotal, cart)
              && v.summary.value.discount == Sum(LineSaving, cart)
              && v.summary.value.totalAmount == Sum(LineTotal, cart)
    ensures v.summary.Some? ==> SumShown(v.lines) == v.summary.value.totalAmount
    ensures v.summary.Some? ==> v.summary.value.originalPrice - v.summary.value.discount == v.summary.value.totalAmount
  {
    LinesShowEachItem(cart);
    var nonEmpty := |cart| > 0;
    CartView(
      scrollToTop := nonEmpty,
      emptyMessage := |cart| == 0,
      lines := Lines(cart),
      summary := if nonEmpty
                 then Some(Summary(TotalQuantity(cart), TotalOriginalPrice(cart), Discount(cart), TotalPayable(cart)))
                 else None,
      checkout := nonEmpty,
      bottomActions := nonEmpty)
  }

  // ---------------------------------------------------------------------
  // Buttons

  /** The drawer's cart buttons: `-1` and `+1` on a card, and `Clear Cart`. */
  datatype CartButton = MinusOne(line: nat) | PlusOne(line: nat) | ClearCart

  /** Whether the drawer renders the button for this cart. */
  predicate Shown(cart: seq<CartItem>, b: CartButton)
  {
    match b
    case MinusOne(i) => i < |cart|
    case PlusOne(i) => i < |cart|
    case ClearCart => |cart| > 0
  }

  /** The store event a press emits. The result carries no cart: the drawer
      only asks the store to change the cart. */
  function Press(cart: seq<CartItem>, b: CartButton): (e: Option<Action>)
    ensures e.Some? <==> Shown(cart, b)
    ensures e.Some? && b.MinusOne? ==> e.value == RemoveFromCart(cart[b.line])
    ensures e.Some? && b.PlusOne? ==> e.value == AddToCart(cart[b.line])
    ensures e.Some? && b.ClearCart? ==> e.value == RemoveAllFromCart
  {
    match b
    case MinusOne(i) => if i < |cart| then Some(RemoveFromCart(cart[i])) else None
    case PlusOne(i) => if i < |cart| then Some(AddToCart(cart[i])) else None
    case ClearCart => if |cart| > 0 then Some(RemoveAllFromCart) else None
  }
}
