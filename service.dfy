/** The collaborators of the order workflow, reduced to what the workflow observes of
    them: the calls it makes, in order, and the stock quantities that updateQuantity
    overwrites. What the lookups return and what the ledger stores are answers supplied
    from outside (the repositories' own code is not part of this model). */
module Repositories {
  import opened Orders

  /** One call to a collaborator, with the arguments it was given. */
  datatype Call =
    | FindCustomer(customerId: CustomerId)
    | FindProducts(products: seq<RequestedProduct>)
    | CreateOrder(customer: Customer, items: seq<LineItem>)
    | UpdateQuantity(updates: seq<QuantityUpdate>)

  /** A call that changes what a repository stores. */
  predicate Writes(c: Call)
  {
    c.CreateOrder? || c.UpdateQuantity?
  }

  /** updateQuantity: each entry sets the stored quantity of its product outright; a later
      entry for the same product replaces an earlier one. */
  function Overwrite(stock: map<ProductId, int>, updates: seq<QuantityUpdate>): (r: map<ProductId, int>)
    ensures r.Keys == stock.Keys + set u | u in updates :: u.id
    decreases |updates|
  {
    if updates == [] then stock
    else Overwrite(stock[updates[0].id := updates[0].quantity], updates[1..])
  }

  /** A product no entry names keeps its stored quantity. */
  lemma {:induction false} OverwriteKeeps(stock: map<ProductId, int>, updates: seq<QuantityUpdate>, id: ProductId)
    requires forall j :: 0 <= j < |updates| ==> updates[j].id != id
    requires id in stock
    ensures id in Overwrite(stock, updates) && Overwrite(stock, updates)[id] == stock[id]
    decreases |updates|
  {
    if updates != [] {
      assert updates[0].id != id;
      OverwriteKeeps(stock[updates[0].id := updates[0].quantity], updates[1..], id);
    }
  }

  /** A product ends with the quantity of the last entry naming it, whatever it held before. */
  lemma {:induction false} OverwriteLast(stock: map<ProductId, int>, updates: seq<QuantityUpdate>, k: int)
    requires 0 <= k < |updates|
    requires forall j :: k < j < |updates| ==> updates[j].id != updates[k].id
    ensures Overwrite(stock, updates)[updates[k].id] == updates[k].quantity
    decreases |updates|
  {
    var next := stock[updates[0].id := updates[0].quantity];
    if k == 0 {
      OverwriteKeeps(next, updates[1..], updates[0].id);
    } else {
      OverwriteLast(next, updates[1..], k - 1);
    }
  }

  /** The repositories as the workflow sees them: the log of calls made to them and the
      stored stock quantities. */
  class Collaborators {
    var calls: seq<Call>
    var stock: map<ProductId, int>

    constructor (stock: map<ProductId, int>)
      ensures this.calls == [] && this.stock == stock
    {
      this.calls := [];
      this.stock := stock;
    }

    /** customersRepository.findById */
    method FindById(customerId: CustomerId)
      modifies this`calls
      ensures calls == old(calls) + [FindCustomer(customerId)]
    {
      calls := calls + [FindCustomer(customerId)];
    }

    /** productsRepository.findAllById */
    method FindAllById(products: seq<RequestedProduct>)
      modifies this`calls
      ensures calls == old(calls) + [FindProducts(products)]
    {
      calls := calls + [FindProducts(products)];
    }

    /** ordersRepository.create */
    method Create(customer: Customer, items: seq<LineItem>)
      modifies this`calls
      ensures calls == old(calls) + [CreateOrder(customer, items)]
    {
      calls := calls + [CreateOrder(customer, items)];
    }

    /** productsRepository.updateQuantity */
    method UpdateQuantities(updates: seq<QuantityUpdate>)
      modifies this
      ensures calls == old(calls) + [UpdateQuantity(updates)]
      ensures stock == Overwrite(old(stock), updates)
    {
      calls := calls + [UpdateQuantity(updates)];
      stock := Overwrite(stock, updates);
    }
  }
}

/** CreateOrderService.execute: the customer gate, the validation, the order creation and
    the stock write-back, in that order. */
module CreateOrderService {
  import opened Orders
  import opened Repositories

  /** What one call of execute returns and the collaborator calls it makes. */
  datatype Outcome = Outcome(result: Result<Order>, calls: seq<Call>)

  /** The ledger's answer is only indexed into the catalog read when the workflow gets
      that far, and then every stored product must be one the catalog returned. */
  ghost predicate LedgerConsistent(request: Request, customer: Option<Customer>, found: seq<CatalogProduct>, stored: Order)
  {
    customer.Some? && Validate(request.products, found).Success? ==> Recorded(stored.orderProducts, found)
  }

  /** The planned effects of execute, given the customer lookup's answer, the catalog's
      answer `found` and the order `stored` that the ledger returns. */
  function Run(request: Request, customer: Option<Customer>, found: seq<CatalogProduct>, stored: Order): (out: Outcome)
    requires LedgerConsistent(request, customer, found, stored)
    ensures customer.None? ==> out == Outcome(Failure(NoCustomer), [FindCustomer(request.customerId)])
    ensures customer.Some? ==> (out.result.Success? <==> Validate(request.products, found).Success?)
    ensures customer.Some? && Validate(request.products, found).Failure? ==>
      out == Outcome(Failure(Validate(request.products, found).error),
                     [FindCustomer(request.customerId), FindProducts(request.products)])
    ensures out.result.Failure? ==> forall c :: c in out.calls ==> !Writes(c)
    ensures out.result.Success? ==>
      && customer.Some?
      && out.result.value == stored
      && out.calls == [FindCustomer(request.customerId), FindProducts(request.products),
                       CreateOrder(customer.value, Validate(request.products, found).value),
                       UpdateQuantity(NewQuantities(stored.orderProducts, found))]
  {
    match customer
    case None => Outcome(Failure(NoCustomer), [FindCustomer(request.customerId)])
    case Some(c) =>
      var lookups := [FindCustomer(request.customerId), FindProducts(request.products)];
      match Validate(request.products, found)
      case Failure(e) => Outcome(Failure(e), lookups)
      case Success(items) =>
        Outcome(Success(stored), lookups + [CreateOrder(c, items), UpdateQuantity(NewQuantities(stored.orderProducts, found))])
  }

  /** The service with its injected repositories. */
  class OrderService {
    const repositories: Collaborators

    constructor (repositories: Collaborators)
      ensures this.repositories == repositories
    {
      this.repositories := repositories;
    }

    /** execute: `customer`, `found` and `stored` are what findById, findAllById and
        create answer for this call. */
    method Execute(request: Request, customer: Option<Customer>, found: seq<CatalogProduct>, stored: Order)
      returns (r: Result<Order>)
      requires LedgerConsistent(request, customer, found, stored)
      modifies repositories
      ensures r == Run(request, customer, found, stored).result
      ensures repositories.calls == old(repositories.calls) + Run(request, customer, found, stored).calls
      ensures r.Failure? ==> repositories.stock == old(repositories.stock)
      ensures r.Success? ==> repositories.stock == Overwrite(old(repositories.stock), NewQuantities(stored.orderProducts, found))
    {
      repositories.FindById(request.customerId);
      if customer.None? {
        return Failure(NoCustomer);
      }
      repositories.FindAllById(request.products);
      var checked := Validate(request.products, found);
      if checked.Failure? {
        return Failure(checked.error);
      }
      repositories.Create(customer.value, checked.value);
      var updates := NewQuantities(stored.orderProducts, found);
      repositories.UpdateQuantities(updates);
      return Success(stored);
    }
  }
  /** With the customer found, execute fails after the two lookups with the first unknown
      id in request order, and nothing is written. */
  lemma RunReportsFirstInvalid(request: Request, c: Customer, found: seq<CatalogProduct>, stored: Order, k: int)
    requires 0 <= k < |request.products| && request.products[k].id !in Ids(found)
    requires forall j :: 0 <= j < k ==> request.products[j].id in Ids(found)
    ensures LedgerConsistent(request, Some(c), found, stored)
    ensures Run(request, Some(c), found, stored) ==
      Outcome(Failure(InvalidProduct(request.products[k].id)),
              [FindCustomer(request.customerId), FindProducts(request.products)])
  {
    ReportsFirstInvalid(request.products, found, k);
  }

  /** With the customer found and every id known, execute fails after the two lookups with
      the first request entry asking for more than the first matching catalog entry holds. */
  lemma RunReportsFirstShortage(request: Request, c: Customer, found: seq<CatalogProduct>, stored: Order, k: int, m: int)
    requires AllListed(request.products, found)
    requires 0 <= k < |request.products| && IsFirst(found, request.products[k].id, m)
    requires found[m].quantity < request.products[k].quantity
    requires forall j, n :: 0 <= j < k && IsFirst(found, request.products[j].id, n) ==>
      request.products[j].quantity <= found[n].quantity
    ensures LedgerConsistent(request, Some(c), found, stored)
    ensures Run(request, Some(c), found, stored) ==
      Outcome(Failure(InsufficientStock(request.products[k].id)),
              [FindCustomer(request.customerId), FindProducts(request.products)])
  {
    ReportsFirstShortage(request.products, found, k, m);
  }

  /** After a successful call, a product named by stored line `k` (the last line naming it)
      holds the quantity the catalog reported before the order, at its first matching
      entry, minus that line's quantity; what the store held meanwhile plays no part. */
  lemma StockAfterOrder(stock: map<ProductId, int>, ops: seq<OrderProduct>, found: seq<CatalogProduct>, k: int, m: int)
    requires Recorded(ops, found)
    requires 0 <= k < |ops| && forall j :: k < j < |ops| ==> ops[j].productId != ops[k].productId
    requires IsFirst(found, ops[k].productId, m)
    ensures Overwrite(stock, NewQuantities(ops, found))[ops[k].productId] == found[m].quantity - ops[k].quantity
  {
    var updates := NewQuantities(ops, found);
    NewQuantityAt(ops, found, k, m);
    OverwriteLast(stock, updates, k);
  }

  /** A product that no stored line names keeps its stored quantity. */
  lemma StockUntouched(stock: map<ProductId, int>, ops: seq<OrderProduct>, found: seq<CatalogProduct>, id: ProductId)
    requires Recorded(ops, found)
    requires forall j :: 0 <= j < |ops| ==> ops[j].productId != id
    requires id in stock
    ensures id in Overwrite(stock, NewQuantities(ops, found))
    ensures Overwrite(stock, NewQuantities(ops, found))[id] == stock[id]
  {
    OverwriteKeeps(stock, NewQuantities(ops, found), id);
  }

  /** Two products, one ordered below and one exactly at its stock: the order goes through,
      the line items carry the catalog prices, and the stock is written back as 5 - 2 and 3 - 3. */
  lemma WorkedExample(stored: Order)
    requires stored.orderProducts == [OrderProduct("op1", "P1", 2, 10.0), OrderProduct("op2", "P2", 3, 20.0)]
    ensures
      var found := [CatalogProduct("P1", 10.0, 5), CatalogProduct("P2", 20.0, 3)];
      var products := [RequestedProduct("P1", 2), RequestedProduct("P2", 3)];
      Run(Request("C", products), Some(Customer("C")), found, stored) ==
        Outcome(Success(stored),
                [FindCustomer("C"), FindProducts(products),
                 CreateOrder(Customer("C"), [LineItem("P1", 2, 10.0), LineItem("P2", 3, 20.0)]),
                 UpdateQuantity([QuantityUpdate("P1", 3), QuantityUpdate("P2", 0)])])
  {
    var found := [CatalogProduct("P1", 10.0, 5), CatalogProduct("P2", 20.0, 3)];
    var products := [RequestedProduct("P1", 2), RequestedProduct("P2", 3)];
    var ops := stored.orderProducts;
    assert IsFirst(found, "P1", 0) && IsFirst(found, "P2", 1);
    ValidateSucceedsIff(products, found);
    ValidatedItems(products, found, 0, 0);
    ValidatedItems(products, found, 1, 1);
    assert Validate(products, found).value == [LineItem("P1", 2, 10.0), LineItem("P2", 3, 20.0)];
    NewQuantityAt(ops, found, 0, 0);
    NewQuantityAt(ops, found, 1, 1);
    assert NewQuantities(ops, found) == [QuantityUpdate("P1", 3), QuantityUpdate("P2", 0)];
  }

  /** Repeated ids are checked one by one against the same stock, never summed: two lines
      of 3 against a stock of 5 pass, and the write-back leaves 5 - 3 = 2, not -1. */
  lemma DuplicatesCheckedSeparately(stock: map<ProductId, int>, stored: Order)
    requires stored.orderProducts == [OrderProduct("op1", "P", 3, 1.0), OrderProduct("op2", "P", 3, 1.0)]
    ensures
      var found := [CatalogProduct("P", 1.0, 5)];
      var products := [RequestedProduct("P", 3), RequestedProduct("P", 3)];
      && Run(Request("C", products), Some(Customer("C")), found, stored).result == Success(stored)
      && NewQuantities(stored.orderProducts, found) == [QuantityUpdate("P", 2), QuantityUpdate("P", 2)]
      && Overwrite(stock, NewQuantities(stored.orderProducts, found))["P"] == 2
  {
    var found := [CatalogProduct("P", 1.0, 5)];
    var products := [RequestedProduct("P", 3), RequestedProduct("P", 3)];
    var ops := stored.orderProducts;
    assert IsFirst(found, "P", 0);
    ValidateSucceedsIff(products, found);
    NewQuantityAt(ops, found, 0, 0);
    NewQuantityAt(ops, found, 1, 0);
    StockAfterOrder(stock, ops, found, 1, 0);
  }
}
