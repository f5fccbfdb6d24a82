/**
 * The storefront's cart: a sequence of lines, each a catalog product spread into a record together
 * with a quantity. The three operations the page offers (add a product, remove a product's line,
 * change a line's quantity by a delta) return a new cart; the total and the item count are derived
 * from the lines on every read.
 */
module CartStore {
  import opened Wrappers

  datatype Product = Product(id: int, name: string, price: int, img: string, category: string)

  /** `Product & { quantity }`: the product's fields copied into the line, plus its quantity. */
  datatype CartItem = CartItem(id: int, name: string, price: int, img: string, category: string, quantity: int)

  /** The static catalog the page is built with; prices are whole pesos. */
  const PRODUCTS: seq<Product> := [
    Product(1, "NOTHING BUT ARC TEE", 599, "/god.png", "Apparel"),
    Product(2, "ARC FUTURE TEE", 599, "/future.png", "Apparel"),
    Product(3, "PUT GOD FIRST", 599, "/godfirst.png", "Apparel"),
    Product(4, "ARC FUTURE HOODIES", 1399, "/create.png", "Apparel")
  ]

  /** `{ ...product, quantity: 1 }` */
  function NewLine(p: Product): CartItem {
    CartItem(p.id, p.name, p.price, p.img, p.category, 1)
  }

  /** The product fields of a line, with its quantity dropped. */
  function ProductOf(item: CartItem): Product {
    Product(item.id, item.name, item.price, item.img, item.category)
  }

  predicate HasId(cart: seq<CartItem>, id: int) {
    exists i | 0 <= i < |cart| :: cart[i].id == id
  }

  /** At most one line per product id. */
  predicate UniqueIds(cart: seq<CartItem>) {
    forall i, j | 0 <= i < j < |cart| :: cart[i].id != cart[j].id
  }

  predicate PositiveQuantities(cart: seq<CartItem>) {
    forall i | 0 <= i < |cart| :: cart[i].quantity >= 1
  }

  /** The cart invariant: unique product ids and every quantity at least 1. */
  predicate Valid(cart: seq<CartItem>) {
    UniqueIds(cart) && PositiveQuantities(cart)
  }

  /** `cart.find(item => item.id === id)`: the first line with that id, if any. */
  function Find(cart: seq<CartItem>, id: int): (r: Option<CartItem>)
    ensures r.None? <==> !HasId(cart, id)
    ensures r.Some? ==> r.value in cart && r.value.id == id
  {
    if cart == [] then None
    else if cart[0].id == id then Some(cart[0])
    else
      var r := Find(cart[1..], id);
      assert HasId(cart[1..], id) ==> HasId(cart, id) by {
        if HasId(cart[1..], id) {
          var i :| 0 <= i < |cart[1..]| && cart[1..][i].id == id;
          assert cart[i + 1].id == id;
        }
      }
      r
  }

  /** `addToCart`: bump the quantity of the product's line if there is one, else append a new line. */
  function AddToCart(cart: seq<CartItem>, p: Product): seq<CartItem> {
    if Find(cart, p.id).Some? then
      seq(|cart|, i requires 0 <= i < |cart| =>
        if cart[i].id == p.id then cart[i].(quantity := cart[i].quantity + 1) else cart[i])
    else
      cart + [NewLine(p)]
  }

  /** `removeFromCart`: `cart.filter(item => item.id !== id)`. */
  function RemoveFromCart(cart: seq<CartItem>, id: int): seq<CartItem> {
    if cart == [] then []
    else (if cart[0].id != id then [cart[0]] else []) + RemoveFromCart(cart[1..], id)
  }

  /** `Math.max(a, b)` */
  function Max(a: int, b: int): int {
    if a >= b then a else b
  }

  /** `updateQuantity`: the matching line's quantity becomes `Math.max(1, quantity + delta)`. */
  function UpdateQuantity(cart: seq<CartItem>, id: int, delta: int): seq<CartItem> {
    seq(|cart|, i requires 0 <= i < |cart| =>
      if cart[i].id == id then cart[i].(quantity := Max(1, cart[i].quantity + delta)) else cart[i])
  }

  // ---------------------------------------------------------------------------------------------
  // Derived values

  function LineTotal(item: CartItem): int {
    item.price * item.quantity
  }

  function Quantity(item: CartItem): int {
    item.quantity
  }

  /** The reference sum of `f` over the lines. */
  function SumBy(cart: seq<CartItem>, f: CartItem -> int): int {
    if cart == [] then 0 else f(cart[0]) + SumBy(cart[1..], f)
  }

  /** `cart.reduce((acc, item) => acc + f(item), acc)`: a left fold from the first line. */
  function Reduce(acc: int, cart: seq<CartItem>, f: CartItem -> int): int
    decreases |cart|
  {
    if cart == [] then acc else Reduce(acc + f(cart[0]), cart[1..], f)
  }

  lemma {:induction false} ReduceIsSum(acc: int, cart: seq<CartItem>, f: CartItem -> int)
    ensures Reduce(acc, cart, f) == acc + SumBy(cart, f)
    decreases |cart|
  {
    if cart != [] {
      ReduceIsSum(acc + f(cart[0]), cart[1..], f);
    }
  }

  /** `cartTotal`: never stored, always the sum of price times quantity over the current lines. */
  function CartTotal(cart: seq<CartItem>): (total: int)
    ensures total == SumBy(cart, LineTotal)
  {
    ReduceIsSum(0, cart, LineTotal);
    Reduce(0, cart, LineTotal)
  }

  /** `cartCount`: the sum of the quantities; in a valid cart at least one per line. */
  function CartCount(cart: seq<CartItem>): (count: int)
    ensures count == SumBy(cart, Quantity)
    ensures Valid(cart) ==> count >= |cart|
  {
    ReduceIsSum(0, cart, Quantity);
    SumOfPositiveQuantities(cart);
    Reduce(0, cart, Quantity)
  }

  lemma {:induction false} SumOfPositiveQuantities(cart: seq<CartItem>)
    ensures PositiveQuantities(cart) ==> SumBy(cart, Quantity) >= |cart|
  {
    if cart != [] && PositiveQuantities(cart) {
      SumOfPositiveQuantities(cart[1..]);
    }
  }

  // ---------------------------------------------------------------------------------------------
  // Sums under the three kinds of change the operations make

  lemma {:induction false} SumByAppend(a: seq<CartItem>, b: seq<CartItem>, f: CartItem -> int)
    ensures SumBy(a + b, f) == SumBy(a, f) + SumBy(b, f)
  {
    if a != [] {
      assert (a + b)[0] == a[0] && (a + b)[1..] == a[1..] + b;
      SumByAppend(a[1..], b, f);
    } else {
      assert a + b == b;
    }
  }

  /** Changing one line changes the sum by exactly that line's difference. */
  lemma {:induction false} SumByReplace(a: seq<CartItem>, b: seq<CartItem>, k: nat, f: CartItem -> int)
    requires |a| == |b| && k < |a|
    requires forall i | 0 <= i < |a| && i != k :: a[i] == b[i]
    ensures SumBy(b, f) == SumBy(a, f) - f(a[k]) + f(b[k])
  {
    if k == 0 {
      assert a[1..] == b[1..];
    } else {
      SumByReplace(a[1..], b[1..], k - 1, f);
    }
  }

  /** In a cart with unique ids, the line holding an id is the only one. */
  lemma OnlyLine(cart: seq<CartItem>, k: nat)
    requires UniqueIds(cart) && k < |cart|
    ensures forall i | 0 <= i < |cart| && i != k :: cart[i].id != cart[k].id
  {
  }

  // ---------------------------------------------------------------------------------------------
  // addToCart

  /** Adding a product already in the cart raises only its line's quantity, by one, keeping the length and order. */
  lemma AddToCartExisting(cart: seq<CartItem>, p: Product, k: nat)
    requires Valid(cart) && k < |cart| && cart[k].id == p.id
    ensures var r := AddToCart(cart, p);
      && |r| == |cart|
      && r[k] == cart[k].(quantity := cart[k].quantity + 1)
      && (forall i | 0 <= i < |cart| && i != k :: r[i] == cart[i])
      && CartCount(r) == CartCount(cart) + 1
      && CartTotal(r) == CartTotal(cart) + cart[k].price
  {
    assert HasId(cart, p.id);
    var r := AddToCart(cart, p);
    OnlyLine(cart, k);
    SumByReplace(cart, r, k, Quantity);
    SumByReplace(cart, r, k, LineTotal);
  }

  /** Adding a product not yet in the cart appends exactly one line of quantity 1 after the existing lines. */
  lemma AddToCartNew(cart: seq<CartItem>, p: Product)
    requires !HasId(cart, p.id)
    ensures var r := AddToCart(cart, p);
      && |r| == |cart| + 1
      && r[..|cart|] == cart
      && ProductOf(r[|cart|]) == p && r[|cart|].quantity == 1
      && CartCount(r) == CartCount(cart) + 1
      && CartTotal(r) == CartTotal(cart) + p.price
  {
    var r := AddToCart(cart, p);
    assert r == cart + [NewLine(p)];
    SumByAppend(cart, [NewLine(p)], Quantity);
    SumByAppend(cart, [NewLine(p)], LineTotal);
  }

  lemma AddToCartPreservesValid(cart: seq<CartItem>, p: Product)
    requires Valid(cart)
    ensures Valid(AddToCart(cart, p))
    ensures HasId(AddToCart(cart, p), p.id)
  {
    var r := AddToCart(cart, p);
    if HasId(cart, p.id) {
      var k :| 0 <= k < |cart| && cart[k].id == p.id;
      AddToCartExisting(cart, p, k);
      assert forall i | 0 <= i < |r| :: r[i].id == cart[i].id && r[i].quantity >= cart[i].quantity;
    } else {
      assert r == cart + [NewLine(p)];
      assert r[|cart|].id == p.id;
    }
  }

  // ---------------------------------------------------------------------------------------------
  // removeFromCart

  lemma {:induction false} RemoveFromCartAppend(a: seq<CartItem>, b: seq<CartItem>, id: int)
    ensures RemoveFromCart(a + b, id) == RemoveFromCart(a, id) + RemoveFromCart(b, id)
  {
    if a != [] {
      assert (a + b)[0] == a[0] && (a + b)[1..] == a[1..] + b;
      RemoveFromCartAppend(a[1..], b, id);
    } else {
      assert a + b == b;
    }
  }

  /** Removing keeps exactly the lines with another id, in their order: it is a filter. */
  lemma RemoveFromCartFilters(a: seq<CartItem>, b: seq<CartItem>, x: CartItem, id: int)
    ensures RemoveFromCart(a + b, id) == RemoveFromCart(a, id) + RemoveFromCart(b, id)
    ensures RemoveFromCart([x], id) == if x.id == id then [] else [x]
  {
    RemoveFromCartAppend(a, b, id);
    assert [x][1..] == [];
  }

  lemma {:induction false} RemoveFromCartMembers(cart: seq<CartItem>, id: int)
    ensures forall x :: x in RemoveFromCart(cart, id) <==> x in cart && x.id != id
  {
    if cart != [] {
      RemoveFromCartMembers(cart[1..], id);
      assert cart == [cart[0]] + cart[1..];
    }
  }

  /** Removing an id that no line holds leaves the cart as it was. */
  lemma {:induction false} RemoveFromCartAbsent(cart: seq<CartItem>, id: int)
    requires !HasId(cart, id)
    ensures RemoveFromCart(cart, id) == cart
  {
    if cart != [] {
      RemoveFromCartAbsent(cart[1..], id);
      assert cart == [cart[0]] + cart[1..];
    }
  }

  lemma SumByCons(x: CartItem, rest: seq<CartItem>, f: CartItem -> int)
    ensures SumBy([x] + rest, f) == f(x) + SumBy(rest, f)
  {
    assert ([x] + rest)[1..] == rest;
  }

  /** Removing one line from the middle lowers the sum by that line's share. */
  lemma SumByRemoveAt(cart: seq<CartItem>, k: nat, f: CartItem -> int)
    requires k < |cart|
    ensures SumBy(cart[..k] + cart[k + 1..], f) == SumBy(cart, f) - f(cart[k])
  {
    var before, after := cart[..k], cart[k + 1..];
    var rest := [cart[k]] + after;
    assert cart == before + rest;
    calc {
      SumBy(cart, f);
      SumBy(before + rest, f);
      { SumByAppend(before, rest, f); }
      SumBy(before, f) + SumBy(rest, f);
      { SumByCons(cart[k], after, f); }
      SumBy(before, f) + f(cart[k]) + SumBy(after, f);
      { SumByAppend(before, after, f); }
      SumBy(before + after, f) + f(cart[k]);
    }
  }

  lemma RemoveFromCartCons(x: CartItem, rest: seq<CartItem>, id: int)
    ensures RemoveFromCart([x] + rest, id) == (if x.id != id then [x] else []) + RemoveFromCart(rest, id)
  {
    assert ([x] + rest)[1..] == rest;
  }

  /** When no other line shares line k's id, neither the lines before k nor those after it hold it. */
  lemma NoIdBesideLine(cart: seq<CartItem>, k: nat)
    requires k < |cart|
    requires forall i | 0 <= i < |cart| && i != k :: cart[i].id != cart[k].id
    ensures !HasId(cart[..k], cart[k].id) && !HasId(cart[k + 1..], cart[k].id)
  {
    var before, after := cart[..k], cart[k + 1..];
    forall i | 0 <= i < |before| ensures before[i].id != cart[k].id {
      assert before[i] == cart[i];
    }
    forall i | 0 <= i < |after| ensures after[i].id != cart[k].id {
      assert after[i] == cart[k + 1 + i];
    }
  }

  lemma SplitAt(cart: seq<CartItem>, k: nat)
    requires k < |cart|
    ensures cart == cart[..k] + ([cart[k]] + cart[k + 1..])
  {
  }

  /** Filtering out the id of one line set between two runs of lines that lack it leaves just the two runs. */
  lemma RemoveFromCartSplice(before: seq<CartItem>, x: CartItem, after: seq<CartItem>)
    requires !HasId(before, x.id) && !HasId(after, x.id)
    ensures RemoveFromCart(before + ([x] + after), x.id) == before + after
  {
    RemoveFromCartCons(x, after, x.id);
    RemoveFromCartAbsent(after, x.id);
    assert RemoveFromCart([x] + after, x.id) == after by {
      assert [] + after == after;
    }
    RemoveFromCartAppend(before, [x] + after, x.id);
    RemoveFromCartAbsent(before, x.id);
  }

  /** In a cart with unique ids, filtering out a line's id cuts out exactly that line. */
  lemma RemoveFromCartCutsLine(cart: seq<CartItem>, k: nat)
    requires k < |cart|
    requires forall i | 0 <= i < |cart| && i != k :: cart[i].id != cart[k].id
    ensures RemoveFromCart(cart, cart[k].id) == cart[..k] + cart[k + 1..]
  {
    var before, after := cart[..k], cart[k + 1..];
    NoIdBesideLine(cart, k);
    RemoveFromCartSplice(before, cart[k], after);
    SplitAt(cart, k);
  }

  /** Removing the line of a product drops that whole line, whatever its quantity, and keeps the rest in order. */
  lemma RemoveFromCartPresent(cart: seq<CartItem>, k: nat)
    requires Valid(cart) && k < |cart|
    ensures var r := RemoveFromCart(cart, cart[k].id);
      && r == cart[..k] + cart[k + 1..]
      && CartCount(r) == CartCount(cart) - cart[k].quantity
      && CartTotal(r) == CartTotal(cart) - LineTotal(cart[k])
  {
    OnlyLine(cart, k);
    RemoveFromCartCutsLine(cart, k);
    SumByRemoveAt(cart, k, Quantity);
    SumByRemoveAt(cart, k, LineTotal);
  }

  lemma RemoveFromCartPreservesValid(cart: seq<CartItem>, id: int)
    requires Valid(cart)
    ensures Valid(RemoveFromCart(cart, id))
    ensures !HasId(RemoveFromCart(cart, id), id)
  {
    var r := RemoveFromCart(cart, id);
    RemoveFromCartMembers(cart, id);
    forall i | 0 <= i < |r| ensures r[i].id != id {
      assert r[i] in r;
    }
    if HasId(cart, id) {
      var k :| 0 <= k < |cart| && cart[k].id == id;
      OnlyLine(cart, k);
      RemoveFromCartCutsLine(cart, k);
      ValidWithout(cart, k);
    } else {
      RemoveFromCartAbsent(cart, id);
    }
  }

  lemma ValidWithout(cart: seq<CartItem>, k: nat)
    requires Valid(cart) && k < |cart|
    ensures Valid(cart[..k] + cart[k + 1..])
  {
    var r := cart[..k] + cart[k + 1..];
    forall i | 0 <= i < |r| ensures r[i] == cart[if i < k then i else i + 1] {
    }
  }

  // ---------------------------------------------------------------------------------------------
  // updateQuantity

  /** Changing the quantity of an id that no line holds leaves the cart as it was. */
  lemma UpdateQuantityAbsent(cart: seq<CartItem>, id: int, delta: int)
    requires !HasId(cart, id)
    ensures UpdateQuantity(cart, id, delta) == cart
  {
    var r := UpdateQuantity(cart, id, delta);
    forall i | 0 <= i < |cart| ensures r[i] == cart[i] {
      assert cart[i].id != id;
    }
  }

  /**
   * The targeted line's quantity becomes `max(1, quantity + delta)`, never below 1; every other line,
   * the length and the order stay as they were.
   */
  lemma UpdateQuantityPresent(cart: seq<CartItem>, k: nat, delta: int)
    requires Valid(cart) && k < |cart|
    ensures var r := UpdateQuantity(cart, cart[k].id, delta);
      && |r| == |cart|
      && r[k] == cart[k].(quantity := Max(1, cart[k].quantity + delta))
      && r[k].quantity >= 1
      && (cart[k].quantity + delta >= 1 ==> r[k].quantity == cart[k].quantity + delta)
      && (cart[k].quantity + delta < 1 ==> r[k].quantity == 1)
      && (forall i | 0 <= i < |cart| && i != k :: r[i] == cart[i])
      && CartCount(r) == CartCount(cart) - cart[k].quantity + r[k].quantity
      && CartTotal(r) == CartTotal(cart) - LineTotal(cart[k]) + LineTotal(r[k])
  {
    var r := UpdateQuantity(cart, cart[k].id, delta);
    OnlyLine(cart, k);
    SumByReplace(cart, r, k, Quantity);
    SumByReplace(cart, r, k, LineTotal);
  }

  lemma UpdateQuantityPreservesValid(cart: seq<CartItem>, id: int, delta: int)
    requires Valid(cart)
    ensures Valid(UpdateQuantity(cart, id, delta))
  {
    var r := UpdateQuantity(cart, id, delta);
    assert forall i | 0 <= i < |r| :: r[i].id == cart[i].id;
  }

  /** A line of 3 nudged by -1000 ends at 1, not at zero or below. */
  lemma UpdateQuantityClampsAtOne()
    ensures var cart := [NewLine(PRODUCTS[0]).(quantity := 3)];
      UpdateQuantity(cart, 1, -1000) == [NewLine(PRODUCTS[0])]
  {
  }

  // ---------------------------------------------------------------------------------------------
  // Any sequence of operations

  /** One cart mutation the page can perform. */
  datatype CartOp = Add(product: Product) | Remove(id: int) | Update(id: int, delta: int)

  function Apply(cart: seq<CartItem>, op: CartOp): seq<CartItem> {
    match op
    case Add(p) => AddToCart(cart, p)
    case Remove(id) => RemoveFromCart(cart, id)
    case Update(id, delta) => UpdateQuantity(cart, id, delta)
  }

  function ApplyAll(cart: seq<CartItem>, ops: seq<CartOp>): seq<CartItem>
    decreases |ops|
  {
    if ops == [] then cart else ApplyAll(Apply(cart, ops[0]), ops[1..])
  }

  /** From an empty cart, every sequence of add, remove and update keeps ids unique and quantities at least 1. */
  lemma {:induction false} ApplyAllPreservesValid(cart: seq<CartItem>, ops: seq<CartOp>)
    requires Valid(cart)
    ensures Valid(ApplyAll(cart, ops))
    decreases |ops|
  {
    if ops != [] {
      match ops[0] {
        case Add(p) => AddToCartPreservesValid(cart, p);
        case Remove(id) => RemoveFromCartPreservesValid(cart, id);
        case Update(id, delta) => UpdateQuantityPreservesValid(cart, id, delta);
      }
      ApplyAllPreservesValid(Apply(cart, ops[0]), ops[1..]);
    }
  }

  /** Two tees and one hoodie: total 2597 and count 3. */
  lemma TotalAndCountExample()
    ensures var cart := ApplyAll([], [Add(PRODUCTS[0]), Add(PRODUCTS[0]), Add(PRODUCTS[3])]);
      && cart == [NewLine(PRODUCTS[0]).(quantity := 2), NewLine(PRODUCTS[3])]
      && CartTotal(cart) == 2597
      && CartCount(cart) == 3
  {
    var tee, hoodie := PRODUCTS[0], PRODUCTS[3];
    var c1 := [NewLine(tee)];
    assert AddToCart([], tee) == c1;
    var c2 := [NewLine(tee).(quantity := 2)];
    assert Find(c1, tee.id).Some?;
    assert AddToCart(c1, tee) == c2;
    assert Find(c2, hoodie.id) == None;
    var c3 := [NewLine(tee).(quantity := 2), NewLine(hoodie)];
    assert AddToCart(c2, hoodie) == c3;
    var ops := [Add(tee), Add(tee), Add(hoodie)];
    assert ops[1..] == [Add(tee), Add(hoodie)] && ops[1..][1..] == [Add(hoodie)];
    calc {
      ApplyAll([], ops);
      ApplyAll(c1, [Add(tee), Add(hoodie)]);
      ApplyAll(c2, [Add(hoodie)]);
      ApplyAll(c3, []);
    }
    assert c3 == [c3[0]] + ([NewLine(hoodie)] + []);
    SumByCons(c3[0], [NewLine(hoodie)] + [], LineTotal);
    SumByCons(NewLine(hoodie), [], LineTotal);
    SumByCons(c3[0], [NewLine(hoodie)] + [], Quantity);
    SumByCons(NewLine(hoodie), [], Quantity);
    assert LineTotal(c3[0]) == 1198 && LineTotal(NewLine(hoodie)) == 1399;
  }
}
