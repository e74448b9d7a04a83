/** The decision logic of order creation (CreateOrderService.execute): the existence
    check, the stock check, the line items sent to the order ledger and the new stock
    quantities computed from the catalog read. Everything here is a pure function of the
    request and of what the repositories returned. */
module Orders {
  import opened Filters

  type ProductId = string
  type CustomerId = string
  /** A price is copied from the catalog into the order and never computed with. */
  type Price = real

  /** One entry of the request: a product id and the quantity asked for. */
  datatype RequestedProduct = RequestedProduct(id: ProductId, quantity: int)

  datatype Request = Request(customerId: CustomerId, products: seq<RequestedProduct>)

  datatype Customer = Customer(id: CustomerId)

  /** A product as the catalog returned it; `quantity` is the stock at the time of that read. */
  datatype CatalogProduct = CatalogProduct(id: ProductId, price: Price, quantity: int)

  /** A line item handed to the order ledger, with the price snapshot taken from the catalog. */
  datatype LineItem = LineItem(productId: ProductId, quantity: int, price: Price)

  /** A line item as the ledger stored it; `id` is the identity the ledger assigned. */
  datatype OrderProduct = OrderProduct(id: string, productId: ProductId, quantity: int, price: Price)

  datatype Order = Order(id: string, customer: Customer, orderProducts: seq<OrderProduct>)

  /** The absolute new stock quantity written back for one product. */
  datatype QuantityUpdate = QuantityUpdate(id: ProductId, quantity: int)

  /** The three ways the workflow aborts; each carries the offending id where there is one. */
  datatype Error = NoCustomer | InvalidProduct(id: ProductId) | InsufficientStock(id: ProductId)

  datatype Option<T> = None | Some(value: T)

  datatype Result<T> = Success(value: T) | Failure(error: Error)

  /** The ids of the catalog answer, in the catalog's order. */
  function Ids(found: seq<CatalogProduct>): (ids: seq<ProductId>)
    ensures |ids| == |found|
    ensures forall i :: 0 <= i < |found| ==> ids[i] == found[i].id
  {
    seq(|found|, i requires 0 <= i < |found| => found[i].id)
  }

  /** `k` is the position of the first catalog entry with this id. */
  ghost predicate IsFirst(found: seq<CatalogProduct>, id: ProductId, k: int)
  {
    && 0 <= k < |found|
    && found[k].id == id
    && forall j :: 0 <= j < k ==> found[j].id != id
  }

  function HasId(id: ProductId): CatalogProduct -> bool
  {
    (p: CatalogProduct) => p.id == id
  }

  /** `found.filter(p => p.id === id)[0]`: defined only when the catalog returned the id. */
  function FirstMatch(found: seq<CatalogProduct>, id: ProductId): (p: CatalogProduct)
    requires id in Ids(found)
    ensures p in found && p.id == id
  {
    var i :| 0 <= i < |found| && Ids(found)[i] == id;
    assert HasId(id)(found[i]);
    Filter(found, HasId(id))[0]
  }

  /** The request entries whose id the catalog did not return. */
  function NotListed(ids: seq<ProductId>): RequestedProduct -> bool
  {
    (p: RequestedProduct) => p.id !in ids
  }

  /** The request entries asking for more than the first matching catalog entry holds. */
  function ExceedsStock(found: seq<CatalogProduct>): RequestedProduct --> bool
  {
    (p: RequestedProduct) requires p.id in Ids(found) => FirstMatch(found, p.id).quantity < p.quantity
  }

  /** Every id of `products` is among the ids the catalog returned. */
  ghost predicate AllListed(products: seq<RequestedProduct>, found: seq<CatalogProduct>)
  {
    forall i :: 0 <= i < |products| ==> products[i].id in Ids(found)
  }

  /** Every stored order product names a product the catalog returned. */
  ghost predicate Recorded(ops: seq<OrderProduct>, found: seq<CatalogProduct>)
  {
    forall i :: 0 <= i < |ops| ==> ops[i].productId in Ids(found)
  }

  /** One line item per requested product, in request order, priced from the catalog. */
  function Serialize(products: seq<RequestedProduct>, found: seq<CatalogProduct>): (items: seq<LineItem>)
    requires AllListed(products, found)
    ensures |items| == |products|
  {
    seq(|products|, i requires 0 <= i < |products| =>
      LineItem(products[i].id, products[i].quantity, FirstMatch(found, products[i].id).price))
  }

  /** The customer-independent part of the validation: existence first, then stock, then
      the line items. Only the first offending request entry is reported. */
  function Validate(products: seq<RequestedProduct>, found: seq<CatalogProduct>): (r: Result<seq<LineItem>>)
    ensures r.Failure? ==> !r.error.NoCustomer?
    ensures r.Failure? ==> exists i :: 0 <= i < |products| && products[i].id == r.error.id
    ensures r.Failure? && r.error.InvalidProduct? ==> r.error.id !in Ids(found)
    ensures r.Failure? && r.error.InsufficientStock? ==> AllListed(products, found) && r.error.id in Ids(found)
    ensures r.Success? ==> AllListed(products, found) && |r.value| == |products|
  {
    var invalid := Filter(products, NotListed(Ids(found)));
    if invalid != [] then
      assert invalid[0] in invalid;
      Failure(InvalidProduct(invalid[0].id))
    else
      assert forall i :: 0 <= i < |products| ==> !NotListed(Ids(found))(products[i]);
      var unavailable := Filter(products, ExceedsStock(found));
      if unavailable != [] then
        assert unavailable[0] in unavailable;
        Failure(InsufficientStock(unavailable[0].id))
      else Success(Serialize(products, found))
  }

  /** The absolute quantities written back: for each stored order product, the catalog
      quantity read before the order was created minus the stored quantity. */
  function NewQuantities(ops: seq<OrderProduct>, found: seq<CatalogProduct>): (updates: seq<QuantityUpdate>)
    requires Recorded(ops, found)
    ensures |updates| == |ops|
    ensures forall i :: 0 <= i < |ops| ==> updates[i].id == ops[i].productId
  {
    seq(|ops|, i requires 0 <= i < |ops| =>
      QuantityUpdate(ops[i].productId, FirstMatch(found, ops[i].productId).quantity - ops[i].quantity))
  }

  // ---------------------------------------------------------------------------
  // Lookups

  /** The first catalog entry with an id is the one `FirstMatch` returns. */
  lemma FirstMatchAt(found: seq<CatalogProduct>, id: ProductId, k: int)
    requires IsFirst(found, id, k)
    ensures id in Ids(found) && FirstMatch(found, id) == found[k]
  {
    assert Ids(found)[k] == id;
    FilterHead(found, HasId(id), k);
  }

  /** Every id the catalog returned has a first position. */
  lemma {:induction false} FirstIndex(found: seq<CatalogProduct>, id: ProductId) returns (k: int)
    requires id in Ids(found)
    ensures IsFirst(found, id, k) && FirstMatch(found, id) == found[k]
  {
    if found[0].id == id {
      k := 0;
    } else {
      var i :| 0 <= i < |found| && Ids(found)[i] == id;
      assert Ids(found[1..])[i - 1] == id;
      var k' := FirstIndex(found[1..], id);
      k := k' + 1;
    }
    FirstMatchAt(found, id, k);
  }

  // ---------------------------------------------------------------------------
  // Validation

  /** An unknown id is reported, and it is the first unknown one in request order. */
  lemma ReportsFirstInvalid(products: seq<RequestedProduct>, found: seq<CatalogProduct>, k: int)
    requires 0 <= k < |products| && products[k].id !in Ids(found)
    requires forall j :: 0 <= j < k ==> products[j].id in Ids(found)
    ensures Validate(products, found) == Failure(InvalidProduct(products[k].id))
  {
    FilterHead(products, NotListed(Ids(found)), k);
  }

  /** With every id known, the first request entry asking for more than the first
      matching catalog entry holds is reported. */
  lemma ReportsFirstShortage(products: seq<RequestedProduct>, found: seq<CatalogProduct>, k: int, m: int)
    requires AllListed(products, found)
    requires 0 <= k < |products| && IsFirst(found, products[k].id, m)
    requires found[m].quantity < products[k].quantity
    requires forall j, n :: 0 <= j < k && IsFirst(found, products[j].id, n) ==> products[j].quantity <= found[n].quantity
    ensures Validate(products, found) == Failure(InsufficientStock(products[k].id))
  {
    var invalid := Filter(products, NotListed(Ids(found)));
    assert forall i :: 0 <= i < |products| ==> !NotListed(Ids(found))(products[i]);
    FirstMatchAt(found, products[k].id, m);
    forall j | 0 <= j < k ensures !ExceedsStock(found)(products[j]) {
      var n := FirstIndex(found, products[j].id);
    }
    FilterHead(products, ExceedsStock(found), k);
  }

  /** The existence check runs first: an unknown id anywhere in the request is reported
      as such, whatever the quantities. */
  lemma MissingBeforeShortage(products: seq<RequestedProduct>, found: seq<CatalogProduct>, i: int)
    requires 0 <= i < |products| && products[i].id !in Ids(found)
    ensures Validate(products, found).Failure? && Validate(products, found).error.InvalidProduct?
  {
    assert NotListed(Ids(found))(products[i]);
  }

  /** Validation succeeds exactly when every id is known and no request entry asks for
      more than the first matching catalog entry holds; asking for exactly that much passes. */
  lemma ValidateSucceedsIff(products: seq<RequestedProduct>, found: seq<CatalogProduct>)
    ensures Validate(products, found).Success? <==>
      && AllListed(products, found)
      && forall i, k :: 0 <= i < |products| && IsFirst(found, products[i].id, k) ==>
           products[i].quantity <= found[k].quantity
  {
    var invalid := Filter(products, NotListed(Ids(found)));
    if invalid == [] {
      assert AllListed(products, found) by {
        forall i | 0 <= i < |products| ensures products[i].id in Ids(found) {
          assert !NotListed(Ids(found))(products[i]);
        }
      }
      var unavailable := Filter(products, ExceedsStock(found));
      forall i, k | 0 <= i < |products| && IsFirst(found, products[i].id, k)
        ensures ExceedsStock(found)(products[i]) <==> found[k].quantity < products[i].quantity
      {
        FirstMatchAt(found, products[i].id, k);
      }
      if unavailable != [] {
        var x := unavailable[0];
        assert x in products && ExceedsStock(found)(x);
        var i :| 0 <= i < |products| && products[i] == x;
        var k := FirstIndex(found, x.id);
      } else {
        forall i | 0 <= i < |products| ensures !ExceedsStock(found)(products[i]) {
        }
      }
    } else {
      var x := invalid[0];
      assert x in products && x.id !in Ids(found);
    }
  }

  /** On success the line items follow the request one for one and in order: id and
      quantity from the request, price from the first matching catalog entry. */
  lemma ValidatedItems(products: seq<RequestedProduct>, found: seq<CatalogProduct>, i: int, k: int)
    requires Validate(products, found).Success?
    requires 0 <= i < |products| && IsFirst(found, products[i].id, k)
    ensures AllListed(products, found)
    ensures |Validate(products, found).value| == |products|
    ensures Validate(products, found).value[i] == LineItem(products[i].id, products[i].quantity, found[k].price)
  {
    ValidateSucceedsIff(products, found);
    FirstMatchAt(found, products[i].id, k);
  }

  // ---------------------------------------------------------------------------
  // New quantities

  /** Entry `i` of the write-back names stored order product `i` and is the catalog
      quantity read before the order (the first matching entry) minus the stored quantity. */
  lemma NewQuantityAt(ops: seq<OrderProduct>, found: seq<CatalogProduct>, i: int, k: int)
    requires Recorded(ops, found)
    requires 0 <= i < |ops| && IsFirst(found, ops[i].productId, k)
    ensures NewQuantities(ops, found)[i] == QuantityUpdate(ops[i].productId, found[k].quantity - ops[i].quantity)
  {
    FirstMatchAt(found, ops[i].productId, k);
  }

  /** The ledger echoes the line items it was given, id and quantity, position by position. */
  ghost predicate Echoes(ops: seq<OrderProduct>, items: seq<LineItem>)
  {
    && |ops| == |items|
    && forall i :: 0 <= i < |ops| ==> ops[i].productId == items[i].productId && ops[i].quantity == items[i].quantity
  }

  /** When the ledger echoes the validated line items, every quantity written back is
      non-negative: each line passed the stock check on its own. Duplicate ids are not
      added up, so this bounds each write, not the total ordered. */
  lemma EchoedQuantitiesNonNegative(products: seq<RequestedProduct>, found: seq<CatalogProduct>, ops: seq<OrderProduct>)
    requires Validate(products, found).Success?
    requires Echoes(ops, Validate(products, found).value)
    ensures Recorded(ops, found)
    ensures forall i :: 0 <= i < |ops| ==> NewQuantities(ops, found)[i].quantity >= 0
  {
    ValidateSucceedsIff(products, found);
    var items := Validate(products, found).value;
    forall i | 0 <= i < |ops| ensures ops[i].productId == products[i].id && ops[i].quantity == products[i].quantity {
      var k := FirstIndex(found, products[i].id);
      ValidatedItems(products, found, i, k);
    }
    forall i | 0 <= i < |ops| ensures NewQuantities(ops, found)[i].quantity >= 0 {
      var k := FirstIndex(found, ops[i].productId);
      NewQuantityAt(ops, found, i, k);
    }
  }
}
