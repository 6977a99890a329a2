/** Creating an order: pricing its lines, adding them up, and answering a repeated client order id. */
module Pricing {
  import opened Basics
  import opened Sums
  import opened Tax
  import Sale
  import SaleInvariant
  import LifecycleLaws
  import PosRuns

  datatype CreateError =
    | InvalidOrder | CustomerNotFound | CustomerInactive | ProductNotFound | PricingPolicyUnavailable
    | PriceOverrideNotAllowed
    | NoPrice | DiscountNotAllowed | DiscountLimitExceeded | TaxPolicyUnavailable | TaxRefused(reason: TaxError)

  /** A policy hook of the service: not installed, failing, or giving a value. */
  datatype Policy<+T> = NotInstalled | Unavailable | Gives(value: T)

  /** `cap` is the largest discount on a gross amount; how the service computes it is not modelled. */
  datatype DiscountPolicy = DiscountPolicy(allowed: bool, percentInRange: bool, cap: int -> int)

  datatype Product = Product(price: Option<int>, allowManualPrice: bool, gst: Option<int>)

  datatype Desk = Desk(
    catalog: map<string, Product>,
    customers: map<string, string>, // customer -> status
    priceOverride: Policy<bool>,
    discount: Policy<DiscountPolicy>,
    tax: Policy<TaxPolicy>)

  datatype ItemInput = ItemInput(productId: string, quantity: int, unitPrice: Option<int>, discount: int, tax: int)

  datatype Line = Line(productId: string, quantity: int, price: int, gross: int, discount: int, tax: int, total: int)

  /** Go's division by 1000 rounds toward zero. */
  function Thousandth(x: int): int {
    if x >= 0 then x / 1000 else -(-x / 1000)
  }

  function PriceOf(desk: Desk, input: ItemInput, product: Product): Result<int, CreateError> {
    if input.unitPrice.None? then
      if product.price.None? then Err(NoPrice) else Ok(product.price.value)
    else if input.unitPrice.value < 0 then Err(InvalidOrder)
    else if product.price == input.unitPrice then Ok(input.unitPrice.value)
    else if desk.priceOverride.Unavailable? then Err(PricingPolicyUnavailable)
    else if product.allowManualPrice && (desk.priceOverride.Gives? ==> desk.priceOverride.value)
    then Ok(input.unitPrice.value)
    else Err(PriceOverrideNotAllowed)
  }

  /** Why a discount is refused, if it is. */
  function DiscountRefusal(desk: Desk, gross: int, discount: int): Option<CreateError> {
    if discount <= 0 || desk.discount.NotInstalled? then None
    else if desk.discount.Unavailable? || !desk.discount.value.percentInRange then Some(PricingPolicyUnavailable)
    else if !desk.discount.value.allowed then Some(DiscountNotAllowed)
    else if discount > desk.discount.value.cap(gross) then Some(DiscountLimitExceeded)
    else None
  }

  /** Tax and total of a line; without a policy the request's own tax is added. */
  function TaxLine(desk: Desk, taxable: int, ownTax: int, gst: Option<int>): Result<Taxed, CreateError> {
    match desk.tax
    case NotInstalled => Ok(Taxed(ownTax, taxable + ownTax))
    case Unavailable => Err(TaxPolicyUnavailable)
    case Gives(policy) =>
      match CalculateTax(policy, taxable, gst)
      case Err(e) => Err(TaxRefused(e))
      case Ok(t) => Ok(t)
  }

  function PriceLine(desk: Desk, input: ItemInput): Result<Line, CreateError> {
    var productId := Trim(input.productId);
    if productId == "" || input.quantity <= 0 || input.discount < 0 || input.tax < 0 then Err(InvalidOrder)
    else if productId !in desk.catalog then Err(ProductNotFound)
    else
      var product := desk.catalog[productId];
      match PriceOf(desk, input, product)
      case Err(e) => Err(e)
      case Ok(price) =>
        var gross := Thousandth(price * input.quantity);
        var refusal := DiscountRefusal(desk, gross, input.discount);
        if refusal.Some? then Err(refusal.value)
        else if gross - input.discount < 0 then Err(InvalidOrder)
        else match TaxLine(desk, gross - input.discount, input.tax, product.gst)
          case Err(e) => Err(e)
          case Ok(t) =>
            if t.total < 0 then Err(InvalidOrder)
            else Ok(Line(productId, input.quantity, price, gross, input.discount, t.tax, t.total))
  }

  /** The lines from `k` on; the first line that fails decides the error. */
  function PriceLines(desk: Desk, inputs: seq<ItemInput>, k: nat, lines: seq<Line>): Result<seq<Line>, CreateError>
    requires k <= |inputs|
    decreases |inputs| - k
  {
    if k == |inputs| then Ok(lines)
    else match PriceLine(desk, inputs[k])
      case Err(e) => Err(e)
      case Ok(line) => PriceLines(desk, inputs, k + 1, lines + [line])
  }

  function GrossOf(line: Line): int { line.gross }
  function DiscountOf(line: Line): int { line.discount }
  function TaxOf(line: Line): int { line.tax }
  function TotalOf(line: Line): int { line.total }

  /** What is known of every line an order is built from. */
  predicate LineOk(desk: Desk, line: Line) {
    && line.quantity > 0 && 0 <= line.discount <= line.gross && line.tax >= 0 && line.total >= 0
    && (desk.tax.Gives? ==> line.tax <= line.gross - line.discount)
    && line.total == line.gross - line.discount + (if TaxOnTop(desk) then line.tax else 0)
  }

  /** Whether the tax is added to the price. */
  predicate TaxOnTop(desk: Desk) {
    desk.tax.Gives? ==> Exclusive(desk.tax.value)
  }

  lemma PricedLineOk(desk: Desk, input: ItemInput)
    ensures var r := PriceLine(desk, input);
            r.Ok? ==> LineOk(desk, r.value) && r.value.quantity == input.quantity && r.value.discount == input.discount
  {
    var r := PriceLine(desk, input);
    if r.Ok? {
      if desk.tax.Gives? {
        TaxIsNearestAndBounded(desk.tax.value, r.value.gross - r.value.discount,
                               desk.catalog[Trim(input.productId)].gst);
      }
    }
    hide CalculateTax, PriceOf, DiscountRefusal, Trim, Upper, Thousandth;
  }

  lemma {:induction false} PricedLinesOk(desk: Desk, inputs: seq<ItemInput>, k: nat, lines: seq<Line>)
    requires k <= |inputs| && |lines| == k
             && forall i | 0 <= i < k :: LineOk(desk, lines[i]) && lines[i].quantity == inputs[i].quantity
    ensures var r := PriceLines(desk, inputs, k, lines);
            r.Ok? ==>
              |r.value| == |inputs|
              && forall i | 0 <= i < |inputs| :: LineOk(desk, r.value[i]) && r.value[i].quantity == inputs[i].quantity
    decreases |inputs| - k
  {
    hide LineOk, PriceLine;
    if k < |inputs| {
      PricedLineOk(desk, inputs[k]);
      var r := PriceLine(desk, inputs[k]);
      if r.Ok? {
        PricedLinesOk(desk, inputs, k + 1, lines + [r.value]);
      }
    }
  }

  /** The four totals of an order fit together, whatever the policies and prices. */
  lemma {:induction false} TotalsFit(desk: Desk, lines: seq<Line>)
    requires forall i | 0 <= i < |lines| :: LineOk(desk, lines[i])
    ensures SumOf(lines, TotalOf) ==
            SumOf(lines, GrossOf) - SumOf(lines, DiscountOf) + (if TaxOnTop(desk) then SumOf(lines, TaxOf) else 0)
    ensures 0 <= SumOf(lines, DiscountOf) <= SumOf(lines, GrossOf) && SumOf(lines, TaxOf) >= 0
  {
    if |lines| > 0 {
      TotalsFit(desk, lines[..|lines| - 1]);
      assert LineOk(desk, lines[|lines| - 1]);
    }
  }

  // ---- the order book --------------------------------------------------------------------------------------

  function ItemRows(lines: seq<Line>, itemIds: nat -> string): (items: seq<Sale.Item>)
    ensures |items| == |lines|
  {
    seq(|lines|, i requires 0 <= i < |lines| => Sale.Item(itemIds(i), lines[i].productId, lines[i].quantity,
                                                          lines[i].total))
  }

  lemma {:induction false} ItemRowsSum(lines: seq<Line>, itemIds: nat -> string)
    ensures SumOf(ItemRows(lines, itemIds), Sale.LineTotalOf) == SumOf(lines, TotalOf)
  {
    if |lines| > 0 {
      ItemRowsSum(lines[..|lines| - 1], itemIds);
      assert ItemRows(lines, itemIds)[..|lines| - 1] == ItemRows(lines[..|lines| - 1], itemIds);
    }
  }

  datatype Request = Request(clientId: string, storeId: string, customerId: Option<string>, currency: string,
      items: seq<ItemInput>)

  /** The row of a created order with its totals. */
  datatype Created = Created(order: Sale.Order, subtotal: int, discount: int, tax: int)

  function CreatedFrom(request: Request, lines: seq<Line>, orderId: string, itemIds: nat -> string): Created {
    Created(LifecycleLaws.NewOrder(orderId, Trim(request.storeId), if request.currency == "" then "INR"
                                   else request.currency, ItemRows(lines, itemIds)),
            SumOf(lines, GrossOf), SumOf(lines, DiscountOf), SumOf(lines, TaxOf))
  }

  /** The checks before the lines are looked at; None lets the request through. */
  function RequestRefusal(desk: Desk, request: Request): Option<CreateError> {
    if request.customerId.Some? && Trim(request.customerId.value) != ""
      && Trim(request.customerId.value) !in desk.customers
    then Some(CustomerNotFound) else None
  }

  /** The trigger on the insert: an order for an inactive customer is rejected once its lines are priced. */
  predicate CustomerBarred(desk: Desk, request: Request) {
    request.customerId.Some? && Trim(request.customerId.value) in desk.customers
    && Trim(request.customerId.value) != "" && desk.customers[Trim(request.customerId.value)] == "inactive"
  }

  predicate WellFormed(request: Request) {
    Trim(request.clientId) != "" && Trim(request.storeId) != "" && |request.items| > 0
  }

  /** A created order can enter the runs of the till, and its total is what its lines add up to. */
  lemma CreatedOrderIsSound(desk: Desk, request: Request, orderId: string, itemIds: nat -> string)
    requires WellFormed(request) && orderId != "" && forall i: nat, j: nat | i < j :: itemIds(i) != itemIds(j)
    requires PriceLines(desk, request.items, 0, []).Ok?
    ensures var created := CreatedFrom(request, PriceLines(desk, request.items, 0, []).value, orderId, itemIds);
            && SaleInvariant.OrderInv(created.order) && PosRuns.ItemsPriced(created.order.items)
            && created.order.total == created.subtotal - created.discount + (if TaxOnTop(desk) then created.tax else 0)
            && 0 <= created.discount <= created.subtotal && created.tax >= 0
  {
    var lines := PriceLines(desk, request.items, 0, []).value;
    PricedLinesOk(desk, request.items, 0, []);
    TotalsFit(desk, lines);
    ItemRowsSum(lines, itemIds);
    var items := ItemRows(lines, itemIds);
    RowsPriced(desk, lines, itemIds);
    hide SaleInvariant.OrderInv, PriceLines, SumOf, ItemRows, LineOk, PosRuns.ItemsPriced;
    var currency := if request.currency == "" then "INR" else request.currency;
    LifecycleLaws.NewOrderOk(orderId, Trim(request.storeId), currency, items);
  }

  lemma RowsPriced(desk: Desk, lines: seq<Line>, itemIds: nat -> string)
    requires (forall i: nat, j: nat | i < j :: itemIds(i) != itemIds(j))
             && forall i | 0 <= i < |lines| :: LineOk(desk, lines[i])
    ensures var items := ItemRows(lines, itemIds);
            && PosRuns.ItemsPriced(items)
            && (forall i | 0 <= i < |items| :: items[i].quantity > 0 && items[i].lineTotal >= 0)
            && forall i, j | 0 <= i < j < |items| :: items[i].id != items[j].id
  {
  }

  class OrderBook {
    var orders: map<string, Created>
    var clients: map<string, string> // UNIQUE client_order_id -> order

    constructor ()
      ensures orders == map[] && clients == map[] && Valid()
    {
      orders, clients := map[], map[];
    }

    predicate Valid()
      reads this
    {
      forall c | c in clients :: clients[c] in orders
    }

    /** A client order id is worth one order, however often it is sent and whatever it then contains. */
    method Create(desk: Desk, request: Request, orderId: string, itemIds: nat -> string) returns (r: Result<Created,
        CreateError>)
      requires Valid() && orderId !in orders
      modifies this
      ensures Valid()
      ensures !WellFormed(request) ==> r == Err(InvalidOrder)
      ensures WellFormed(request) && Trim(request.clientId) in old(clients) ==>
              r == Ok(old(orders)[old(clients)[Trim(request.clientId)]])
      ensures WellFormed(request) && Trim(request.clientId) !in old(clients) ==>
                if RequestRefusal(desk, request).Some? then r == Err(RequestRefusal(desk, request).value)
                else match PriceLines(desk, request.items, 0, [])
                     case Err(e) => r == Err(e)
                     case Ok(lines) =>
                       if CustomerBarred(desk, request) then r == Err(CustomerInactive)
                       else (r == Ok(CreatedFrom(request, lines, orderId, itemIds))
                             && orders == old(orders)[orderId := r.value]
                             && clients == old(clients)[Trim(request.clientId) := orderId])
      ensures r.Err? || Trim(request.clientId) in old(clients) ==> orders == old(orders) && clients == old(clients)
    {
      var clientId := Trim(request.clientId);
      if !WellFormed(request) {
        return Err(InvalidOrder);
      }
      if clientId in clients {
        return Ok(orders[clients[clientId]]);
      }
      var refusal := RequestRefusal(desk, request);
      if refusal.Some? {
        return Err(refusal.value);
      }
      var built: seq<Line> := [];
      var subtotal, discount, tax, total := 0, 0, 0, 0;
      var k := 0;
      while k < |request.items|
        invariant k <= |request.items|
        invariant PriceLines(desk, request.items, 0, []) == PriceLines(desk, request.items, k, built)
        invariant subtotal == SumOf(built, GrossOf) && discount == SumOf(built, DiscountOf)
        invariant tax == SumOf(built, TaxOf) && total == SumOf(built, TotalOf)
        invariant orders == old(orders) && clients == old(clients)
      {
        var line := PriceLine(desk, request.items[k]);
        if line.Err? {
          return Err(line.error);
        }
        SumAppend(built, line.value, GrossOf);
        SumAppend(built, line.value, DiscountOf);
        SumAppend(built, line.value, TaxOf);
        SumAppend(built, line.value, TotalOf);
        built := built + [line.value];
        subtotal, discount, tax, total :=
          subtotal + line.value.gross, discount + line.value.discount, tax + line.value.tax, total + line.value.total;
        k := k + 1;
      }
      if CustomerBarred(desk, request) {
        return Err(CustomerInactive);
      }
      ItemRowsSum(built, itemIds);
      var order := Sale.Order(orderId, Trim(request.storeId), if request.currency == "" then "INR"
                              else request.currency,
                              ItemRows(built, itemIds), total, Sale.Confirmed, false, 1, [], [], [], None, {1}, []);
      var created := Created(order, subtotal, discount, tax);
      orders := orders[orderId := created];
      clients := clients[clientId := orderId];
      return Ok(created);
    }
  }
}
