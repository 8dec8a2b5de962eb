/** Model of classServer.ts: the two stateful services, the component that
    drives them, and the class decorator. */
module ClassServer {

  /** WareService: the stock of a ware, starting at 10. */
  class WareService {
    var stockLevel: int

    constructor ()
      ensures stockLevel == 10
    {
      stockLevel := 10;
    }

    /** The `stock` getter. */
    function Stock(): int
      reads this
    {
      stockLevel
    }

    /** Lowers the stock by one, with no lower bound: it may go negative. */
    method DecreaseStock()
      modifies this
      ensures stockLevel == old(stockLevel) - 1
    {
      stockLevel := stockLevel - 1;
    }
  }

  /** CartService: how many wares are in the cart, starting at 0. */
  class CartService {
    var count: int

    constructor ()
      ensures count == 0
    {
      count := 0;
    }

    /** The `wareCount` getter. */
    function WareCount(): int
      reads this
    {
      count
    }

    /** Raises the cart count by one. */
    method IncreaseWareCount()
      modifies this
      ensures count == old(count) + 1
    {
      count := count + 1;
    }
  }

  /** The state a WareComponent reports: the stock and the cart count. */
  datatype Counters = Counters(stock: int, wareCount: int)

  /** The counters of a freshly constructed pair of services. */
  const FreshCounters := Counters(10, 0)

  /** What one addToCart does to the counters. */
  function AfterAddToCart(s: Counters): Counters
  {
    Counters(s.stock - 1, s.wareCount + 1)
  }

  /** The counters after n calls of addToCart. */
  function AfterAddToCartTimes(s: Counters, n: nat): Counters
  {
    if n == 0 then s else AfterAddToCart(AfterAddToCartTimes(s, n - 1))
  }

  /** Starting from fresh services, n calls leave stock 10 - n and cart count n. */
  lemma {:induction false} AddToCartTimesFromFresh(n: nat)
    ensures AfterAddToCartTimes(FreshCounters, n) == Counters(10 - n, n)
  {
    if n > 0 {
      AddToCartTimesFromFresh(n - 1);
    }
  }

  /** addToCart moves one ware from stock to cart: any number of calls keeps
      stock + cart count as it was. */
  lemma {:induction false} AddToCartKeepsTotal(s: Counters, n: nat)
    ensures AfterAddToCartTimes(s, n).stock + AfterAddToCartTimes(s, n).wareCount
         == s.stock + s.wareCount
    ensures AfterAddToCartTimes(s, n).wareCount == s.wareCount + n
  {
    if n > 0 {
      AddToCartKeepsTotal(s, n - 1);
    }
  }

  /** WareComponent: holds the two services it was constructed with. */
  class WareComponent {
    const wareService: WareService
    const cartService: CartService

    constructor (wareService: WareService, cartService: CartService)
      ensures this.wareService == wareService && this.cartService == cartService
    {
      this.wareService := wareService;
      this.cartService := cartService;
    }

    /** The counters of the two held services. */
    function State(): Counters
      reads wareService, cartService
    {
      Counters(wareService.Stock(), cartService.WareCount())
    }

    /** Decreases the stock, then increases the cart count; `report` holds the
        two values the status line shows, read after both updates. Only the two
        held services change. */
    method AddToCart() returns (report: Counters)
      modifies wareService, cartService
      ensures State() == AfterAddToCart(old(State()))
      ensures report == State()
    {
      wareService.DecreaseStock();
      cartService.IncreaseWareCount();
      report := Counters(wareService.Stock(), cartService.WareCount());
    }
  }

  /** The Injectablexxx decorator: it is handed a class and does nothing with
      it. It has no result and may modify nothing. */
  method Injectablexxx<C>(ctor: C)
  {
  }
}
