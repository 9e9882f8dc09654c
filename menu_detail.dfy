/**
 * The menu-item detail page: the quantity stepper and the "Add to Cart" action.
 * The token is the one the page read from the auth store; the cart request's
 * outcome is an input, and what the action does (the request it sends, the alerts
 * it raises, where it navigates) is its result.
 */
module MenuDetail {

  import opened Wrappers
  import opened Js

  /** The two stepper buttons. */
  datatype Button = Minus | Plus

  /** The quantity after one click. */
  function Next(quantity: int, b: Button): (q: int)
    ensures b == Minus ==> q >= 1 && q <= if quantity > 1 then quantity else 1
    ensures b == Minus && quantity > 1 ==> q == quantity - 1
    ensures b == Plus ==> q == quantity + 1
  {
    match b
    case Minus => if quantity - 1 > 1 then quantity - 1 else 1
    case Plus => quantity + 1
  }

  /** The quantity after a sequence of clicks, oldest first. */
  function Run(quantity: int, clicks: seq<Button>): int
    decreases |clicks|
  {
    if clicks == [] then quantity else Run(Next(quantity, clicks[0]), clicks[1..])
  }

  /** Starting from 1 (or any positive quantity), no sequence of clicks brings the quantity below 1. */
  lemma {:induction false} RunStaysPositive(quantity: int, clicks: seq<Button>)
    requires quantity >= 1
    ensures Run(quantity, clicks) >= 1
    decreases |clicks|
  {
    if clicks != [] {
      RunStaysPositive(Next(quantity, clicks[0]), clicks[1..]);
    }
  }

  /** Each click moves the quantity by at most one, so `n` clicks move it by at most `n`. */
  lemma {:induction false} RunBounded(quantity: int, clicks: seq<Button>)
    requires quantity >= 1
    ensures quantity - |clicks| <= Run(quantity, clicks) <= quantity + |clicks|
    decreases |clicks|
  {
    if clicks != [] {
      RunBounded(Next(quantity, clicks[0]), clicks[1..]);
    }
  }

  /** The body of `POST /api/cart` with its bearer header. */
  datatype CartRequest = CartRequest(menuItemId: string, quantity: int, authorization: string)

  /** The JSON body the cart endpoint replies with. */
  datatype CartReply = CartReply(success: bool, message: Nullable)

  /** What one "Add to Cart" click did. */
  datatype AddToCartEffect = AddToCartEffect(request: Option<CartRequest>, alerts: seq<string>, navigateTo: Option<string>)

  class MenuDetailPage {
    /** The `:id` route parameter. */
    const id: string
    /** The token read from the auth store when the page rendered. */
    const token: Nullable
    var quantity: int

    ghost predicate Valid()
      reads this
    {
      quantity >= 1
    }

    constructor (id: string, token: Nullable)
      ensures Valid() && quantity == 1
      ensures this.id == id && this.token == token
    {
      this.id := id;
      this.token := token;
      quantity := 1;
    }

    /** The minus button: `setQuantity(Math.max(1, quantity - 1))`. */
    method Decrement()
      requires Valid()
      modifies this
      ensures Valid()
      ensures quantity == Next(old(quantity), Minus)
      ensures quantity == if old(quantity) > 1 then old(quantity) - 1 else 1
    {
      quantity := if quantity - 1 > 1 then quantity - 1 else 1;
    }

    /** The plus button: `setQuantity(quantity + 1)`. */
    method Increment()
      requires Valid()
      modifies this
      ensures Valid()
      ensures quantity == Next(old(quantity), Plus)
      ensures quantity == old(quantity) + 1
    {
      quantity := quantity + 1;
    }

    /**
     * `handleAddToCart`: without a token, an alert and a redirect to the login page and
     * no request; otherwise the request with the current quantity, then the cart page on
     * `success`, the server's message otherwise (`alert` shows an absent one as "undefined" and a `null` one as "null"), and only a log line on an exception.
     */
    method HandleAddToCart(net: Completion<CartReply>) returns (e: AddToCartEffect)
      ensures !TruthyString(token) ==>
        e == AddToCartEffect(None, ["Please login to add to cart"], Some("/login"))
      ensures TruthyString(token) ==>
        e.request == Some(CartRequest(id, quantity, Bearer(token)))
      ensures TruthyString(token) && net.Normal? && net.value.success ==>
        e.alerts == ["Added to cart!"] && e.navigateTo == Some("/cart")
      ensures TruthyString(token) && net.Normal? && !net.value.success ==>
        e.alerts == [StringOf(net.value.message)] && e.navigateTo == None
      ensures TruthyString(token) && net.Threw? ==>
        e.alerts == [] && e.navigateTo == None
    {
      if !TruthyString(token) {
        e := AddToCartEffect(None, ["Please login to add to cart"], Some("/login"));
        return;
      }
      var request := CartRequest(id, quantity, Bearer(token));
      match net
      case Threw(_) =>
        e := AddToCartEffect(Some(request), [], None);
      case Normal(result) =>
        if result.success {
          e := AddToCartEffect(Some(request), ["Added to cart!"], Some("/cart"));
        } else {
          e := AddToCartEffect(Some(request), [StringOf(result.message)], None);
        }
    }
  }
}
