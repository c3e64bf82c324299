/**
 * OrderService.createOrder: turns an order request into a COMPLETED order.
 * It resolves the table and the customer, prices every item (the request's
 * price, else the catalog price), totals them, applies the surcharge, credits
 * the customer one loyalty point per 1000 VNĐ and releases the table.
 *
 * The method runs in one transaction: when any step throws, nothing it did is
 * kept. The model therefore decides everything first and commits at the end.
 * The product, customer and order repositories are fields of the service;
 * money is `real`; the clock is the `now` parameter.
 */
module Orders {
  import opened Wrappers
  import opened Text
  import opened Catalog
  import opened Lists
  import opened Tables
  import opened JavaInt

  /** One requested line: product id, quantity, optional unit price, optional note. */
  datatype OrderItemRequest = OrderItemRequest(productId: int, quantity: int, price: Option<real>, note: Option<string>)

  /** The order request, with exactly the fields createOrder reads. */
  datatype OrderRequest = OrderRequest(
    tableId: Option<int>,
    tableNumber: Option<string>,
    customerId: Option<int>,
    customerName: Option<string>,
    customerPhoneNumber: Option<string>,
    totalAmount: Option<real>,
    surchargePercent: Option<real>,
    surchargeAmount: Option<real>,
    surchargeName: Option<string>,
    customerCash: Option<real>,
    changeAmount: Option<real>,
    items: seq<OrderItemRequest>)

  /** The status createOrder gives every order (the other statuses are not part of this model). */
  datatype OrderStatus = Completed

  datatype OrderItem = OrderItem(product: Product, quantity: int, price: real, note: Option<string>)

  datatype Customer = Customer(id: int, name: string, phoneNumber: string, points: Option<int>)

  datatype Order = Order(
    id: int,
    tableNumber: string,
    tableRef: Option<int>,
    totalAmount: real,
    createdAt: int,
    status: OrderStatus,
    createdBy: string,
    customer: Option<int>,
    items: seq<OrderItem>,
    surchargeName: Option<string>,
    surchargePercent: real,
    surchargeAmount: real,
    customerCash: Option<real>,
    changeAmount: Option<real>)

  /** The IllegalArgumentExceptions createOrder throws, in the order it checks. */
  datatype OrderError = NoItems | UnknownTable | NameRequired | UnknownCustomer | UnknownProduct

  /** The request's table number, "Takeout" when it is null or blank. */
  function DefaultTableNumber(tableNumber: Option<string>): (r: string)
    ensures !IsBlank(r)
    ensures tableNumber.Some? && !IsBlank(tableNumber.value) ==> r == tableNumber.value
  {
    if tableNumber.None? || IsBlank(tableNumber.value) then
      assert !IsWhitespace("Takeout"[0]);
      "Takeout"
    else tableNumber.value
  }

  // ---------------------------------------------------------------------------
  // Items and totals.

  /** The unit price of a line: the request's price when given, else the catalog's. */
  function UnitPrice(req: OrderItemRequest, product: Product): real {
    req.price.GetOr(product.price)
  }

  function ItemFor(req: OrderItemRequest, product: Product): OrderItem {
    OrderItem(product, req.quantity, UnitPrice(req, product), req.note)
  }

  /** The items loop, as a specification: the lines priced one after another,
    * failing at the first unknown product id. */
  function PriceItems(reqs: seq<OrderItemRequest>, products: map<int, Product>): Result<seq<OrderItem>, OrderError>
    decreases |reqs|
  {
    if reqs == [] then Ok([])
    else
      var last := reqs[|reqs| - 1];
      var init := PriceItems(reqs[..|reqs| - 1], products);
      if init.Err? then init
      else if last.productId !in products then Err(UnknownProduct)
      else Ok(init.value + [ItemFor(last, products[last.productId])])
  }

  /** Pricing succeeds exactly when every product id is known; then there is
    * one order item per request line, in request order, at its unit price. */
  lemma {:induction false} PriceItemsSpec(reqs: seq<OrderItemRequest>, products: map<int, Product>)
    ensures PriceItems(reqs, products).Ok? <==> forall i :: 0 <= i < |reqs| ==> reqs[i].productId in products
    ensures PriceItems(reqs, products).Err? ==> PriceItems(reqs, products).error == UnknownProduct
    ensures PriceItems(reqs, products).Ok? ==>
      var items := PriceItems(reqs, products).value;
      |items| == |reqs| && forall i :: 0 <= i < |reqs| ==> items[i] == ItemFor(reqs[i], products[reqs[i].productId])
    decreases |reqs|
  {
    if reqs != [] {
      var init := reqs[..|reqs| - 1];
      PriceItemsSpec(init, products);
      assert forall i :: 0 <= i < |init| ==> init[i] == reqs[i];
    }
  }

  /** derivedTotal: the sum of unit price times quantity, added left to right. */
  function DerivedTotal(items: seq<OrderItem>): real
    decreases |items|
  {
    if items == [] then 0.0
    else DerivedTotal(items[..|items| - 1]) + items[|items| - 1].price * items[|items| - 1].quantity as real
  }

  /** The derived total of two lists laid end to end. */
  lemma {:induction false} DerivedTotalAppend(a: seq<OrderItem>, b: seq<OrderItem>)
    ensures DerivedTotal(a + b) == DerivedTotal(a) + DerivedTotal(b)
    decreases |b|
  {
    if b == [] {
      assert a + b == a;
    } else {
      var init := b[..|b| - 1];
      assert (a + b)[..|a + b| - 1] == a + init;
      DerivedTotalAppend(a, init);
    }
  }

  /** The surcharge percent, 0 when not given. */
  function SurchargePercentOf(request: OrderRequest): real {
    request.surchargePercent.GetOr(0.0)
  }

  /** The surcharge amount when given, else derived × percent / 100. */
  function SurchargeAmountOf(request: OrderRequest, derived: real): real {
    if request.surchargeAmount.Some? then request.surchargeAmount.value
    else derived * SurchargePercentOf(request) / 100.0
  }

  /** The total when given, else derived plus surcharge. */
  function TotalOf(request: OrderRequest, derived: real): real {
    if request.totalAmount.Some? then request.totalAmount.value
    else derived + SurchargeAmountOf(request, derived)
  }

  /** With no amount given, the total is the derived total with the percent
    * added on top, and with no percent either it is the derived total itself. */
  lemma DefaultTotal(request: OrderRequest, derived: real)
    requires request.totalAmount.None? && request.surchargeAmount.None?
    ensures TotalOf(request, derived) == derived * (1.0 + SurchargePercentOf(request) / 100.0)
    ensures request.surchargePercent.None? ==>
      SurchargeAmountOf(request, derived) == 0.0 && TotalOf(request, derived) == derived
  {
  }

  // ---------------------------------------------------------------------------
  // Customers and loyalty points.

  /** (int) (total / 1000) for a positive total: whole thousands, rounded down,
    * saturating at the largest int as Java's narrowing of a double does. */
  function PointsEarned(total: real): (r: int)
    requires total > 0.0
    ensures 0 <= r <= MaxInt
    ensures 1000.0 * r as real <= total
    ensures r < MaxInt ==> total < 1000.0 * (r + 1) as real
    ensures r == MaxInt <==> total >= 1000.0 * MaxInt as real
  {
    var thousands := (total / 1000.0).Floor;
    if thousands > MaxInt then MaxInt else thousands
  }

  /** How the customer of the order is found or made. */
  datatype CustomerPlan =
    | NoCustomer
    | Existing(index: nat, customer: Customer)
    | Created(customer: Customer)

  function HasPhone(phone: string): Customer -> bool {
    (c: Customer) => c.phoneNumber == phone
  }

  function HasCustomerId(id: int): Customer -> bool {
    (c: Customer) => c.id == id
  }

  /** The customer step: by phone number (renaming an existing customer to a
    * given non-blank name, or creating a new one, which needs a name), else by
    * id, else none. A found customer's null points become 0. */
  function ResolveCustomer(request: OrderRequest, customers: seq<Customer>, nextId: int): (r: Result<CustomerPlan, OrderError>)
    ensures r.Ok? && r.value.Existing? ==>
      r.value.index < |customers| && r.value.customer.points.Some?
      && r.value.customer.id == customers[r.value.index].id
      && r.value.customer.phoneNumber == customers[r.value.index].phoneNumber
    ensures r.Ok? && r.value.Created? ==>
      r.value.customer.points == Some(0) && !IsBlank(r.value.customer.name) && r.value.customer.id == nextId
    ensures r == Err(NameRequired) <==>
      request.customerPhoneNumber.Some? && !IsBlank(request.customerPhoneNumber.value)
      && (forall c :: c in customers ==> c.phoneNumber != request.customerPhoneNumber.value)
      && (request.customerName.None? || IsBlank(request.customerName.value))
    ensures r == Err(UnknownCustomer) <==>
      (request.customerPhoneNumber.None? || IsBlank(request.customerPhoneNumber.value))
      && request.customerId.Some? && (forall c :: c in customers ==> c.id != request.customerId.value)
    ensures r.Err? ==> r.error == NameRequired || r.error == UnknownCustomer
  {
    var name := request.customerName;
    if request.customerPhoneNumber.Some? && !IsBlank(request.customerPhoneNumber.value) then
      var phone := request.customerPhoneNumber.value;
      var i := FirstIndex(customers, HasPhone(phone));
      if i < |customers| then
        var c := customers[i];
        var named := if name.Some? && !IsBlank(name.value) && name.value != c.name then c.(name := name.value) else c;
        Ok(Existing(i, named.(points := Some(named.points.GetOr(0)))))
      else if name.None? || IsBlank(name.value) then Err(NameRequired)
      else Ok(Created(Customer(nextId, name.value, phone, Some(0))))
    else if request.customerId.Some? then
      var i := FirstIndex(customers, HasCustomerId(request.customerId.value));
      if i < |customers| then
        Ok(Existing(i, customers[i].(points := Some(customers[i].points.GetOr(0)))))
      else Err(UnknownCustomer)
    else Ok(NoCustomer)
  }

  /** The customer after the order: credited with the points of a positive
    * total, added as Java ints are, so past the largest int they wrap. */
  function Credited(c: Customer, total: real): (r: Customer)
    ensures r.id == c.id && r.name == c.name && r.phoneNumber == c.phoneNumber
    ensures total > 0.0 ==> r.points.Some? && InIntRange(r.points.value)
    ensures total > 0.0 && InIntRange(c.points.GetOr(0) + PointsEarned(total)) ==>
      r.points == Some(c.points.GetOr(0) + PointsEarned(total))
    ensures total > 0.0 && InIntRange(c.points.GetOr(0)) && c.points.GetOr(0) + PointsEarned(total) > MaxInt ==>
      r.points == Some(c.points.GetOr(0) + PointsEarned(total) - 0x1_0000_0000)
    ensures total <= 0.0 ==> r == c
  {
    if total > 0.0 then c.(points := Some(AddInt(c.points.GetOr(0), PointsEarned(total)))) else c
  }

  /** The customer repository after the order. */
  function Committed(customers: seq<Customer>, plan: CustomerPlan, total: real): (r: seq<Customer>)
    requires plan.Existing? ==> plan.index < |customers|
    ensures plan.NoCustomer? ==> r == customers
    ensures plan.Existing? ==> r == customers[plan.index := Credited(plan.customer, total)]
    ensures plan.Created? ==> r == customers + [Credited(plan.customer, total)]
  {
    match plan
    case NoCustomer => customers
    case Existing(i, c) => customers[i := Credited(c, total)]
    case Created(c) => customers + [Credited(c, total)]
  }

  /** The customer id the order records. */
  function CustomerIdOf(plan: CustomerPlan): Option<int> {
    match plan
    case NoCustomer => None
    case Existing(_, c) => Some(c.id)
    case Created(c) => Some(c.id)
  }

  /** A known customer ordering for a positive total gains exactly the whole
    * thousands of the total in points while the sum stays an int, and every
    * other customer is untouched. */
  lemma PointsCredited(customers: seq<Customer>, plan: CustomerPlan, total: real)
    requires plan.Existing? && plan.index < |customers| && plan.customer.points.Some? && total > 0.0
    requires InIntRange(plan.customer.points.value + PointsEarned(total))
    ensures var r := Committed(customers, plan, total);
      |r| == |customers|
      && r[plan.index].points.value == plan.customer.points.value + PointsEarned(total)
      && 1000.0 * (r[plan.index].points.value - plan.customer.points.value) as real <= total
      && forall j :: 0 <= j < |customers| && j != plan.index ==> r[j] == customers[j]
  {
  }

  /** The points are a Java int: a customer already at the largest int who
    * orders for 1000 ends with the smallest int, a negative balance. */
  lemma PointsWrap(customers: seq<Customer>, plan: CustomerPlan)
    requires plan.Existing? && plan.index < |customers| && plan.customer.points == Some(MaxInt)
    ensures Committed(customers, plan, 1000.0)[plan.index].points == Some(MinInt)
  {
    assert PointsEarned(1000.0) == 1;
  }

  /** The exception createOrder ends with, if any: the checks in their order. */
  function Rejection(request: OrderRequest, tableIds: set<int>, customers: seq<Customer>, nextCustomerId: int,
                     products: map<int, Product>): (r: Option<OrderError>)
    ensures r.None? ==> request.items != [] && PriceItems(request.items, products).Ok?
    ensures r.None? ==> ResolveCustomer(request, customers, nextCustomerId).Ok?
    ensures r.None? && request.tableId.Some? ==> request.tableId.value in tableIds
  {
    if request.items == [] then Some(NoItems)
    else if request.tableId.Some? && request.tableId.value !in tableIds then Some(UnknownTable)
    else if ResolveCustomer(request, customers, nextCustomerId).Err? then
      Some(ResolveCustomer(request, customers, nextCustomerId).error)
    else if PriceItems(request.items, products).Err? then Some(UnknownProduct)
    else None
  }

  /** The order createOrder saves: COMPLETED, at the derived total with the
    * surcharge unless the request gives the amounts. */
  function OrderFor(id: int, request: OrderRequest, tableNumber: string, plan: CustomerPlan,
                    items: seq<OrderItem>, user: string, now: int): (o: Order)
    ensures o.status == Completed && o.items == items && o.tableRef == request.tableId
    ensures o.totalAmount == TotalOf(request, DerivedTotal(items))
    ensures o.surchargeAmount == SurchargeAmountOf(request, DerivedTotal(items))
  {
    Order(id, tableNumber, request.tableId, TotalOf(request, DerivedTotal(items)), now, Completed, user,
          CustomerIdOf(plan), items, request.surchargeName, SurchargePercentOf(request),
          SurchargeAmountOf(request, DerivedTotal(items)), request.customerCash, request.changeAmount)
  }

  // ---------------------------------------------------------------------------
  // The service.

  class OrderService {
    const tableService: TableService
    var products: map<int, Product>
    var customers: seq<Customer>
    var orders: seq<Order>
    /** The identity columns: the id the next saved order and customer get. */
    var nextOrderId: int
    var nextCustomerId: int

    constructor (tableService: TableService, products: map<int, Product>)
      ensures this.tableService == tableService && this.products == products
      ensures customers == [] && orders == [] && nextOrderId == 1 && nextCustomerId == 1
    {
      this.tableService := tableService;
      this.products := products;
      customers := [];
      orders := [];
      nextOrderId := 1;
      nextCustomerId := 1;
    }

    /** The items loop: one order item per request line, adding unit price
      * times quantity to the derived total; an unknown product id throws. */
    method BuildItems(reqs: seq<OrderItemRequest>) returns (r: Result<seq<OrderItem>, OrderError>, derivedTotal: real)
      ensures r == PriceItems(reqs, products)
      ensures r.Ok? ==> derivedTotal == DerivedTotal(r.value)
    {
      var items: seq<OrderItem> := [];
      derivedTotal := 0.0;
      for n := 0 to |reqs|
        invariant PriceItems(reqs[..n], products) == Ok(items)
        invariant derivedTotal == DerivedTotal(items)
      {
        var item := reqs[n];
        if item.productId !in products {
          PriceItemsSpec(reqs, products);
          return Err(UnknownProduct), derivedTotal;
        }
        var product := products[item.productId];
        var unitPrice := UnitPrice(item, product);
        derivedTotal := derivedTotal + unitPrice * item.quantity as real;
        assert reqs[..n + 1][..n] == reqs[..n];
        items := items + [OrderItem(product, item.quantity, unitPrice, item.note)];
      }
      assert reqs[..|reqs|] == reqs;
      r := Ok(items);
    }

    /** Saving the order and, when there is one, its customer with the points
      * of the order's total. */
    method Commit(order: Order, plan: CustomerPlan)
      requires plan.Existing? ==> plan.index < |customers|
      modifies this
      ensures orders == old(orders) + [order] && nextOrderId == old(nextOrderId) + 1
      ensures customers == Committed(old(customers), plan, order.totalAmount)
      ensures nextCustomerId == old(nextCustomerId) + (if plan.Created? then 1 else 0)
      ensures products == old(products)
    {
      orders := orders + [order];
      nextOrderId := nextOrderId + 1;
      if plan.Created? {
        nextCustomerId := nextCustomerId + 1;
      }
      customers := Committed(customers, plan, order.totalAmount);
    }

    /** createOrder for the given user at time `now`. */
    method CreateOrder(request: OrderRequest, user: string, now: int) returns (r: Result<Order, OrderError>)
      requires tableService.Valid()
      modifies this, tableService.tables.Values
      ensures tableService.tables == old(tableService.tables) && products == old(products)
      ensures var e := Rejection(request, tableService.tables.Keys, old(customers), old(nextCustomerId), products);
        (r.Err? <==> e.Some?) && (r.Err? ==> r.error == e.value)
      ensures r.Err? ==> unchanged(this) && unchanged(tableService.tables.Values)
      ensures r.Ok? ==>
        var plan := ResolveCustomer(request, old(customers), old(nextCustomerId)).value;
        var items := PriceItems(request.items, products).value;
        && r.value == OrderFor(old(nextOrderId), request, r.value.tableNumber, plan, items, user, now)
        && orders == old(orders) + [r.value]
        && customers == Committed(old(customers), plan, r.value.totalAmount)
      ensures r.Ok? && request.tableId.None? ==>
        r.value.tableNumber == DefaultTableNumber(request.tableNumber)
      ensures r.Ok? && request.tableId.Some? ==>
        var t := tableService.tables[request.tableId.value];
        r.value.tableNumber == old(t.name) && t.State() == AfterRelease(old(t.State()))
    {
      if request.items == [] {
        return Err(NoItems);
      }
      var tableNumber := DefaultTableNumber(request.tableNumber);
      if request.tableId.Some? {
        var found := tableService.GetById(request.tableId.value);
        if found.Err? {
          return Err(UnknownTable);
        }
        tableNumber := found.value.name;
      }
      var plan := ResolveCustomer(request, customers, nextCustomerId);
      if plan.Err? {
        return Err(plan.error);
      }
      var built, derivedTotal := BuildItems(request.items);
      if built.Err? {
        PriceItemsSpec(request.items, products);
        return Err(built.error);
      }
      var order := OrderFor(nextOrderId, request, tableNumber, plan.value, built.value, user, now);
      Commit(order, plan.value);
      if request.tableId.Some? {
        var _ := tableService.Release(request.tableId.value);
      }
      return Ok(order);
    }
  }
}
