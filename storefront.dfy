/**
 * The storefront page's state (`Home` in app/page.tsx): the cart, the open/closed flags of the cart
 * drawer and the checkout modal, and the checkout submission. The handler `handleCheckoutSubmit`
 * suspends on `fetch`; it is modelled as `BeginSubmit` (up to the `await`) and `CompleteSubmit`
 * (how the `fetch` settled), so that the state in between can be observed.
 */
module Storefront {
  import opened Wrappers
  import CartStore
  import ReceiptRoute

  /** The checkout form's fields, all strings (empty until typed). */
  datatype FormData = FormData(email: string, fullName: string, address: string, phone: string)

  /** How the `fetch` to the receipt endpoint settled: a response with a status, or a thrown error. */
  datatype FetchResult = Responded(status: int) | Threw(message: string)

  /** `response.ok` */
  predicate ResponseOk(result: FetchResult) {
    result.Responded? && 200 <= result.status <= 299
  }

  function ToReceiptItems(cart: seq<CartStore.CartItem>): (items: seq<ReceiptRoute.ReceiptItem>)
    ensures |items| == |cart|
    ensures forall i | 0 <= i < |cart| ::
      items[i] == ReceiptRoute.ReceiptItem(cart[i].name, cart[i].quantity, cart[i].price)
  {
    if cart == [] then []
    else [ReceiptRoute.ReceiptItem(cart[0].name, cart[0].quantity, cart[0].price)] + ToReceiptItems(cart[1..])
  }

  /** The sum of price times quantity over posted items. */
  function ItemsTotal(items: seq<ReceiptRoute.ReceiptItem>): int {
    if items == [] then 0 else items[0].price * items[0].quantity + ItemsTotal(items[1..])
  }

  /** The JSON body the page posts: `{ customer: formData, items: cart, total: cartTotal }`. */
  function OrderRequest(form: FormData, cart: seq<CartStore.CartItem>): ReceiptRoute.Request {
    ReceiptRoute.Request(
      ReceiptRoute.Customer(Some(form.email), form.fullName, form.address, form.phone),
      ToReceiptItems(cart),
      CartStore.CartTotal(cart))
  }

  lemma {:induction false} ItemsTotalOfCart(cart: seq<CartStore.CartItem>)
    ensures ItemsTotal(ToReceiptItems(cart)) == CartStore.SumBy(cart, CartStore.LineTotal)
  {
    if cart != [] {
      ItemsTotalOfCart(cart[1..]);
    }
  }

  /**
   * The posted order carries one item per cart line, in order, and a total that is exactly the
   * sum of those items' price times quantity; the recipient is the form's email.
   */
  lemma OrderRequestMatchesCart(form: FormData, cart: seq<CartStore.CartItem>)
    ensures var request := OrderRequest(form, cart);
      && |request.items| == |cart|
      && (forall i | 0 <= i < |cart| :: request.items[i].name == cart[i].name
            && request.items[i].quantity == cart[i].quantity && request.items[i].price == cart[i].price)
      && request.total == ItemsTotal(request.items)
      && (ReceiptRoute.HasRecipient(request.customer) <==> form.email != "")
  {
    ItemsTotalOfCart(cart);
  }

  class Home {
    var cart: seq<CartStore.CartItem>
    var isCartOpen: bool
    var isCheckoutOpen: bool
    var isProcessing: bool
    var orderComplete: bool
    var formData: FormData
    /** The 6-second reset timers scheduled by successful submissions and not yet fired. */
    var pendingResets: nat

    ghost predicate Valid()
      reads this
    {
      CartStore.Valid(cart)
    }

    constructor ()
      ensures Valid()
      ensures cart == [] && !isCartOpen && !isCheckoutOpen && !isProcessing && !orderComplete
      ensures formData == FormData("", "", "", "") && pendingResets == 0
    {
      cart := [];
      isCartOpen := false;
      isCheckoutOpen := false;
      isProcessing := false;
      orderComplete := false;
      formData := FormData("", "", "", "");
      pendingResets := 0;
    }

    /** `addToCart(product)`: update the cart, then open the cart drawer. */
    method AddToCart(p: CartStore.Product)
      requires Valid()
      modifies this`cart, this`isCartOpen
      ensures Valid() && isCartOpen
      ensures cart == CartStore.AddToCart(old(cart), p)
      ensures CartStore.HasId(cart, p.id)
    {
      CartStore.AddToCartPreservesValid(cart, p);
      cart := CartStore.AddToCart(cart, p);
      isCartOpen := true;
    }

    /** `removeFromCart(id)` */
    method RemoveFromCart(id: int)
      requires Valid()
      modifies this`cart
      ensures Valid() && !CartStore.HasId(cart, id)
      ensures cart == CartStore.RemoveFromCart(old(cart), id)
    {
      CartStore.RemoveFromCartPreservesValid(cart, id);
      cart := CartStore.RemoveFromCart(cart, id);
    }

    /** `updateQuantity(id, delta)` */
    method UpdateQuantity(id: int, delta: int)
      requires Valid()
      modifies this`cart
      ensures Valid() && |cart| == |old(cart)|
      ensures cart == CartStore.UpdateQuantity(old(cart), id, delta)
    {
      CartStore.UpdateQuantityPreservesValid(cart, id, delta);
      cart := CartStore.UpdateQuantity(cart, id, delta);
    }

    /** The drawer's checkout button: close the cart drawer and open the checkout modal. */
    method ProceedToCheckout()
      modifies this`isCartOpen, this`isCheckoutOpen
      ensures !isCartOpen && isCheckoutOpen
    {
      isCartOpen := false;
      isCheckoutOpen := true;
    }

    /** A click on the modal's backdrop closes it, except while the confirmation is shown. */
    method DismissCheckout()
      modifies this`isCheckoutOpen
      ensures isCheckoutOpen == (old(isCheckoutOpen) && orderComplete)
    {
      if !orderComplete {
        isCheckoutOpen := false;
      }
    }

    /**
     * `handleCheckoutSubmit` up to its `await`: mark the submission as processing and post the form,
     * the cart and its total. Nothing here checks `isProcessing` first.
     */
    method BeginSubmit() returns (request: ReceiptRoute.Request)
      modifies this`isProcessing
      ensures isProcessing
      ensures request == OrderRequest(formData, cart)
    {
      isProcessing := true;
      request := OrderRequest(formData, cart);
    }

    /**
     * `handleCheckoutSubmit` after its `await`: an ok response completes the order, empties the cart
     * and schedules the reset; a failed response or a thrown error changes neither; in every case
     * processing ends.
     */
    method CompleteSubmit(result: FetchResult)
      requires Valid()
      modifies this`orderComplete, this`cart, this`pendingResets, this`isProcessing
      ensures Valid() && !isProcessing
      ensures ResponseOk(result) ==> orderComplete && cart == [] && pendingResets == old(pendingResets) + 1
      ensures !ResponseOk(result) ==>
        cart == old(cart) && orderComplete == old(orderComplete) && pendingResets == old(pendingResets)
    {
      if ResponseOk(result) {
        orderComplete := true;
        cart := [];
        pendingResets := pendingResets + 1;
      }
      isProcessing := false;
    }

    /** The whole `handleCheckoutSubmit`, for a `fetch` that settles with `result`. */
    method HandleCheckoutSubmit(result: FetchResult) returns (request: ReceiptRoute.Request)
      requires Valid()
      modifies this`orderComplete, this`cart, this`pendingResets, this`isProcessing
      ensures Valid() && !isProcessing
      ensures request == OrderRequest(formData, old(cart))
      ensures ResponseOk(result) ==> orderComplete && cart == [] && pendingResets == old(pendingResets) + 1
      ensures !ResponseOk(result) ==>
        cart == old(cart) && orderComplete == old(orderComplete) && pendingResets == old(pendingResets)
    {
      request := BeginSubmit();
      CompleteSubmit(result);
    }

    /** The reset timer fires: the checkout modal closes and the confirmation is cleared. */
    method ResetTimerFires()
      requires pendingResets > 0
      modifies this`isCheckoutOpen, this`orderComplete, this`pendingResets
      ensures !isCheckoutOpen && !orderComplete
      ensures pendingResets == old(pendingResets) - 1
    {
      isCheckoutOpen := false;
      orderComplete := false;
      pendingResets := pendingResets - 1;
    }
  }

  /**
   * A submission whose `fetch` reaches the receipt endpoint: the page posts its order, the endpoint
   * answers, and the page reacts to the status. The cart is emptied exactly when the email was sent.
   */
  method PlaceOrder(home: Home, env: ReceiptRoute.Env, verify: ReceiptRoute.Outcome, send: ReceiptRoute.Outcome,
                    orderRef: nat)
    returns (response: ReceiptRoute.Response, effects: seq<ReceiptRoute.Effect>)
    requires home.Valid() && orderRef < 100000
    modifies home`orderComplete, home`cart, home`pendingResets, home`isProcessing
    ensures home.Valid() && !home.isProcessing
    ensures response.status == 200 <==> home.formData.email != "" && verify.Ok? && send.Ok?
    ensures response.status == 200 ==> home.orderComplete && home.cart == []
    ensures response.status == 200 ==> home.pendingResets == old(home.pendingResets) + 1
    ensures response.status != 200 ==>
      home.cart == old(home.cart) && home.orderComplete == old(home.orderComplete)
      && home.pendingResets == old(home.pendingResets)
    ensures home.formData.email == "" ==> response.status == 400 && effects == []
    ensures ReceiptRoute.InProtocolOrder(effects)
    ensures |effects| == 3 ==>
      && effects[2].mail.to == home.formData.email
      && effects[2].mail.html.rows == ReceiptRoute.ItemListHtml(ToReceiptItems(old(home.cart)))
  {
    var request := home.BeginSubmit();
    OrderRequestMatchesCart(home.formData, home.cart);
    response, effects := ReceiptRoute.Post(ReceiptRoute.Received(request), env, verify, send, orderRef);
    home.CompleteSubmit(Responded(response.status));
  }
}
