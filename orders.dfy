/**
 * app/composables/useOrders.ts: the `orders` table, the owner/admin rules
 * and the reads of the product table an order needs. No order operation
 * changes a product's stock.
 */
module Orders {
  import opened Wrappers
  import opened Strings
  import opened Sorting
  import opened Auth
  import opened Activity
  import opened Catalogue

  const NotAuthenticatedError: string := "User not authenticated"
  const OrderNotFoundMessage: string := "Order not found"
  const AccessDeniedMessage: string := "Access denied"
  const NotPendingMessage: string := "Cannot edit non-pending order"
  const AdminRequiredMessage: string := "Admin access required"
  const DefaultOrderName: string := "Order"
  const AdminRole: string := "admin"

  datatype Status = Pending | Processing | Completed | Cancelled

  function StatusName(s: Status): string {
    match s
    case Pending => "pending"
    case Processing => "processing"
    case Completed => "completed"
    case Cancelled => "cancelled"
  }

  /** An `orders` row; `totalPrice` is in cents. */
  datatype Order = Order(
    id: Id,
    userId: Id,
    productId: Id,
    quantity: int,
    totalPrice: int,
    status: Status,
    notes: Option<string>,
    createdAt: int,
    updatedAt: int)

  /** `CreateOrderData`; omitted notes are "". */
  datatype NewOrder = NewOrder(productId: Id, quantity: int, notes: string)

  /** `UpdateOrderData`: the fields supplied. */
  datatype OrderPatch = OrderPatch(productId: Option<Id>, quantity: Option<int>, status: Option<Status>, notes: Option<string>)

  /** The `getAllOrders` options; "" stands for an absent search. */
  datatype OrderQuery = OrderQuery(status: Option<Status>, userId: Option<Id>, search: string, startDate: Option<int>, endDate: Option<int>)

  function OrderCreatedAt(o: Order): int {
    o.createdAt
  }

  predicate IsAdmin(profile: Option<UserProfile>) {
    profile.Some? && profile.value.role == AdminRole
  }

  predicate IsOwner(o: Order, profile: Option<UserProfile>) {
    profile.Some? && o.userId == profile.value.id
  }

  /** The permission check of `getOrderById` and of `updateOrder`: owner or admin. */
  predicate CanAccess(o: Order, profile: Option<UserProfile>) {
    IsOwner(o, profile) || IsAdmin(profile)
  }

  /** `updateOrder` goes ahead: an admin always, an owner only on a pending order. */
  predicate CanEdit(o: Order, profile: Option<UserProfile>) {
    IsAdmin(profile) || (IsOwner(o, profile) && o.status == Pending)
  }

  /** `getAllOrders` user filter: an explicit user id, else everything for an admin and one's own orders for anyone else. */
  predicate Visible(o: Order, userId: Option<Id>, profile: Option<UserProfile>) {
    if userId.Some? then o.userId == userId.value else IsAdmin(profile) || IsOwner(o, profile)
  }

  /** The server-side filters of `getAllOrders`. */
  predicate Selected(o: Order, q: OrderQuery, profile: Option<UserProfile>) {
    (q.status.None? || o.status == q.status.value)
    && Visible(o, q.userId, profile)
    && (q.startDate.None? || o.createdAt >= q.startDate.value)
    && (q.endDate.None? || o.createdAt <= q.endDate.value)
  }

  /** The client-side search of `getAllOrders` over product name, SKU, user name and notes. */
  predicate MatchesSearch(o: Order, products: map<Id, Product>, userNames: map<Id, string>, search: string) {
    search == ""
    || (o.productId in products && IncludesIgnoringCase(products[o.productId].name, search))
    || (o.productId in products && IncludesIgnoringCase(products[o.productId].sku, search))
    || (o.userId in userNames && IncludesIgnoringCase(userNames[o.userId], search))
    || (o.notes.Some? && IncludesIgnoringCase(o.notes.value, search))
  }

  /** `product?.name || "Order"`: the name an order is logged under. */
  function OrderName(products: map<Id, Product>, productId: Id, lookupFails: bool): (name: string)
    ensures name != ""
    ensures !lookupFails && productId in products && products[productId].name != "" ==> name == products[productId].name
    ensures lookupFails || productId !in products || products[productId].name == "" ==> name == DefaultOrderName
  {
    if !lookupFails && productId in products && products[productId].name != "" then products[productId].name else DefaultOrderName
  }

  /** `data.quantity` as a JavaScript condition: present and non-zero. */
  predicate Truthy(q: Option<int>) {
    q.Some? && q.value != 0
  }

  /** What an update does to `total_price`. `NaN` is the product of a price and an undefined quantity; the JSON body sends it as `null`. */
  datatype Repricing = KeepPrice | SetPrice(price: int) | SetNaN

  /**
   * The price recomputation of `updateOrder` as written. The existing row is
   * read with only `user_id` and `status`, so its product id and quantity are
   * undefined: without a supplied product the lookup finds nothing, and
   * without a supplied quantity the price is `unit_price * undefined`.
   */
  function RepriceAsWritten(d: OrderPatch, products: map<Id, Product>, lookupFails: bool): Repricing {
    if !(d.productId.Some? || Truthy(d.quantity)) then KeepPrice
    else if d.productId.None? || lookupFails || d.productId.value !in products then KeepPrice
    else if Truthy(d.quantity) then SetPrice(products[d.productId.value].unitPrice * d.quantity.value)
    else SetNaN
  }

  /**
   * The recomputation the code evidently intends: the order's product and
   * quantity after the update, with the existing row's values as fallbacks.
   */
  function Reprice(existing: Order, d: OrderPatch, products: map<Id, Product>, lookupFails: bool): (rp: Repricing)
    ensures rp != SetNaN
    ensures rp.SetPrice? ==>
      d.productId.GetOr(existing.productId) in products
      && rp.price == products[d.productId.GetOr(existing.productId)].unitPrice * d.quantity.GetOr(existing.quantity)
    ensures d.productId.None? && d.quantity.None? ==> rp == KeepPrice
    ensures (d.productId.Some? || d.quantity.Some?) && !lookupFails && d.productId.GetOr(existing.productId) in products ==> rp.SetPrice?
    ensures lookupFails || d.productId.GetOr(existing.productId) !in products ==> rp == KeepPrice
  {
    if d.productId.None? && d.quantity.None? then KeepPrice
    else
      var productId := d.productId.GetOr(existing.productId);
      if lookupFails || productId !in products then KeepPrice
      else SetPrice(products[productId].unitPrice * d.quantity.GetOr(existing.quantity))
  }

  /** `{ ...data, updated_at, total_price? }` applied to a row. */
  function ApplyOrderPatch(o: Order, d: OrderPatch, rp: Repricing, now: int): (u: Order)
    requires rp != SetNaN
    ensures u.id == o.id && u.userId == o.userId && u.createdAt == o.createdAt && u.updatedAt == now
    ensures u.productId == d.productId.GetOr(o.productId) && u.quantity == d.quantity.GetOr(o.quantity)
    ensures u.status == d.status.GetOr(o.status)
    ensures d.notes.None? ==> u.notes == o.notes
    ensures d.notes.Some? ==> u.notes == d.notes
    ensures u.totalPrice == if rp.SetPrice? then rp.price else o.totalPrice
  {
    o.(productId := d.productId.GetOr(o.productId),
       quantity := d.quantity.GetOr(o.quantity),
       status := d.status.GetOr(o.status),
       notes := if d.notes.Some? then d.notes else o.notes,
       totalPrice := if rp.SetPrice? then rp.price else o.totalPrice,
       updatedAt := now)
  }

  /** `status === "cancelled" ? "cancel" : "status_change"` */
  function StatusAction(s: Status): (a: Action)
    ensures a == Cancel <==> s == Cancelled
    ensures a == Cancel || a == StatusChange
  {
    if s == Cancelled then Cancel else StatusChange
  }

  function CreatedOrderEntry(o: Order, name: string): Entry {
    Entry(Create, OrderEntity, Some(o.id), Some(name),
      map["quantity" := IntToString(o.quantity), "total_price" := IntToString(o.totalPrice), "product_id" := NatToString(o.productId)])
  }

  function PatchFields(d: OrderPatch): map<string, string> {
    (if d.productId.Some? then map["packaging_product_id" := NatToString(d.productId.value)] else map[])
    + (if d.quantity.Some? then map["quantity" := IntToString(d.quantity.value)] else map[])
    + (if d.status.Some? then map["status" := StatusName(d.status.value)] else map[])
    + (if d.notes.Some? then map["notes" := d.notes.value] else map[])
  }

  function StatusEntry(id: Id, name: string, oldStatus: Option<Status>, s: Status): Entry {
    Entry(StatusAction(s), OrderEntity, Some(id), Some(name),
      (if oldStatus.Some? then map["old_status" := StatusName(oldStatus.value)] else map[]) + map["new_status" := StatusName(s)])
  }

  /** Every order sits under its own id, below the next id to be given out. */
  ghost predicate OrdersWellFormed(orders: map<Id, Order>, nextId: Id) {
    forall id :: id in orders ==> orders[id].id == id && id < nextId
  }

  class OrderBook {
    /** The `orders` table. */
    var orders: map<Id, Order>
    var nextId: Id
    /** The product table the orders refer to; read, never written here. */
    const catalogue: Catalogue
    const activity: ActivityLog

    constructor (catalogue: Catalogue, activity: ActivityLog)
      ensures orders == map[] && nextId == 0 && this.catalogue == catalogue && this.activity == activity
    {
      orders := map[];
      nextId := 0;
      this.catalogue := catalogue;
      this.activity := activity;
    }

    function OrderRows(): seq<Order>
      reads this
    {
      RowsBelow(orders, nextId)
    }

    /**
     * `createOrder(d)` by `profile` at `now`: check the caller, read the
     * product, refuse a quantity above its stock, insert a pending order
     * priced at unit price times quantity.
     */
    method CreateOrder(d: NewOrder, profile: Option<UserProfile>, now: int, productReadFails: bool) returns (r: Result<Order>)
      requires OrdersWellFormed(orders, nextId)
      modifies this, activity
      ensures OrdersWellFormed(orders, nextId)
      ensures catalogue.products == old(catalogue.products)
      ensures profile.None? ==> r == Err(NotAuthenticatedError) && activity.records == old(activity.records)
      ensures d.productId !in catalogue.products ==> r.Err?
      ensures profile.Some? && productReadFails ==> r == Err(DatabaseErrorMessage)
      ensures r == Err(InsufficientStockMessage) <==>
        profile.Some? && !productReadFails && d.productId in catalogue.products && catalogue.products[d.productId].stock < d.quantity
      ensures r.Err? ==> orders == old(orders) && nextId == old(nextId) && activity.records == old(activity.records)
      ensures r.Ok? ==>
        profile.Some? && !productReadFails && d.productId in catalogue.products
        && var product := catalogue.products[d.productId];
        product.stock >= d.quantity
        && r.value == Order(old(nextId), profile.value.id, d.productId, d.quantity, product.unitPrice * d.quantity,
                            Pending, OrNull(d.notes), now, now)
        && orders == old(orders)[old(nextId) := r.value] && nextId == old(nextId) + 1
        && Appended(old(activity.records), activity.records, old(activity.nextId), profile,
             CreatedOrderEntry(r.value, OrderName(catalogue.products, d.productId, false)), now)
    {
      if profile.None? {
        return Err(NotAuthenticatedError);
      }
      if productReadFails || d.productId !in catalogue.products {
        return Err(DatabaseErrorMessage);
      }
      var product := catalogue.products[d.productId];
      if product.stock < d.quantity {
        return Err(InsufficientStockMessage);
      }
      var insertFails: bool := *;
      if insertFails {
        return Err(DatabaseErrorMessage);
      }
      var order := Order(nextId, profile.value.id, d.productId, d.quantity, product.unitPrice * d.quantity,
                         Pending, OrNull(d.notes), now, now);
      orders := orders[nextId := order];
      nextId := nextId + 1;
      var _ := activity.LogActivity(profile, CreatedOrderEntry(order, OrderName(catalogue.products, d.productId, false)), now);
      return Ok(order);
    }

    /**
     * `updateOrder(id, d)` with the price recomputation corrected (see
     * `RepriceAsWritten`). `readFails` is whether the permission read errs,
     * which the code reports as a missing order; `priceLookupFails` is
     * whether the product read errs, which the code ignores.
     */
    method UpdateOrder(id: Id, d: OrderPatch, profile: Option<UserProfile>, now: int, readFails: bool, priceLookupFails: bool)
      returns (r: Result<Order>)
      requires OrdersWellFormed(orders, nextId)
      modifies this, activity
      ensures OrdersWellFormed(orders, nextId) && nextId == old(nextId)
      ensures catalogue.products == old(catalogue.products)
      ensures r == Err(OrderNotFoundMessage) <==> id !in old(orders) || readFails
      ensures r == Err(AccessDeniedMessage) <==> id in old(orders) && !readFails && !CanAccess(old(orders)[id], profile)
      ensures r == Err(NotPendingMessage) <==>
        id in old(orders) && !readFails && CanAccess(old(orders)[id], profile) && !CanEdit(old(orders)[id], profile)
      ensures r.Err? ==> orders == old(orders) && activity.records == old(activity.records)
      ensures r.Ok? ==>
        id in old(orders) && CanEdit(old(orders)[id], profile)
        && var existing := old(orders)[id];
        r.value == ApplyOrderPatch(existing, d, Reprice(existing, d, catalogue.products, priceLookupFails), now)
        && orders == old(orders)[id := r.value]
        && Appended(old(activity.records), activity.records, old(activity.nextId), profile,
             Entry(Update, OrderEntity, Some(id), Some(OrderName(catalogue.products, r.value.productId, false)), PatchFields(d)), now)
    {
      if id !in orders || readFails {
        return Err(OrderNotFoundMessage);
      }
      var existing := orders[id];
      if !IsOwner(existing, profile) && !IsAdmin(profile) {
        return Err(AccessDeniedMessage);
      }
      if !IsAdmin(profile) && existing.status != Pending {
        return Err(NotPendingMessage);
      }
      var repricing := Reprice(existing, d, catalogue.products, priceLookupFails);
      var updateFails: bool := *;
      if updateFails {
        return Err(DatabaseErrorMessage);
      }
      var updated := ApplyOrderPatch(existing, d, repricing, now);
      orders := orders[id := updated];
      var _ := activity.LogActivity(profile,
        Entry(Update, OrderEntity, Some(id), Some(OrderName(catalogue.products, updated.productId, false)), PatchFields(d)), now);
      return Ok(updated);
    }

    /** `deleteOrder(id)`: admins only; the product's stock is left as it is. */
    method DeleteOrder(id: Id, profile: Option<UserProfile>, nameLookupFails: bool, now: int) returns (r: Result<()>)
      requires OrdersWellFormed(orders, nextId)
      modifies this, activity
      ensures OrdersWellFormed(orders, nextId) && nextId == old(nextId)
      ensures catalogue.products == old(catalogue.products)
      ensures !IsAdmin(profile) ==> r == Err(AdminRequiredMessage)
      ensures r.Err? ==> orders == old(orders) && activity.records == old(activity.records)
      ensures r.Ok? ==>
        IsAdmin(profile) && orders == old(orders) - {id}
        && var name := if id in old(orders) then OrderName(catalogue.products, old(orders)[id].productId, nameLookupFails) else DefaultOrderName;
        Appended(old(activity.records), activity.records, old(activity.nextId), profile,
          Entry(Delete, OrderEntity, Some(id), Some(name), map[]), now)
    {
      if !IsAdmin(profile) {
        return Err(AdminRequiredMessage);
      }
      var name := if id in orders then OrderName(catalogue.products, orders[id].productId, nameLookupFails) else DefaultOrderName;
      var deleteFails: bool := *;
      if deleteFails {
        return Err(DatabaseErrorMessage);
      }
      orders := orders - {id};
      var _ := activity.LogActivity(profile, Entry(Delete, OrderEntity, Some(id), Some(name), map[]), now);
      return Ok(());
    }

    /**
     * `updateOrderStatus(id, s)`: any status may follow any other; there is
     * no permission check. `orderLookupFails` is whether the read for the
     * log entry errs, which the code ignores.
     */
    method UpdateOrderStatus(id: Id, s: Status, profile: Option<UserProfile>, now: int, orderLookupFails: bool) returns (r: Result<Order>)
      requires OrdersWellFormed(orders, nextId)
      modifies this, activity
      ensures OrdersWellFormed(orders, nextId) && nextId == old(nextId)
      ensures catalogue.products == old(catalogue.products)
      ensures id !in old(orders) ==> r.Err?
      ensures r.Err? ==> orders == old(orders) && activity.records == old(activity.records)
      ensures r.Ok? ==>
        id in old(orders) && r.value == old(orders)[id].(status := s, updatedAt := now)
        && orders == old(orders)[id := r.value]
        && var before := if orderLookupFails then None else Some(old(orders)[id].status);
        Appended(old(activity.records), activity.records, old(activity.nextId), profile,
          StatusEntry(id, OrderName(catalogue.products, old(orders)[id].productId, orderLookupFails), before, s), now)
    {
      if id !in orders {
        return Err(DatabaseErrorMessage);
      }
      var before := if orderLookupFails then None else Some(orders[id].status);
      var name := OrderName(catalogue.products, orders[id].productId, orderLookupFails);
      var updateFails: bool := *;
      if updateFails {
        return Err(DatabaseErrorMessage);
      }
      var updated := orders[id].(status := s, updatedAt := now);
      orders := orders[id := updated];
      var _ := activity.LogActivity(profile, StatusEntry(id, name, before, s), now);
      return Ok(updated);
    }

    /** `cancelOrder(id)` is `updateOrderStatus(id, "cancelled")`. */
    method CancelOrder(id: Id, profile: Option<UserProfile>, now: int, orderLookupFails: bool) returns (r: Result<Order>)
      requires OrdersWellFormed(orders, nextId)
      modifies this, activity
      ensures OrdersWellFormed(orders, nextId) && nextId == old(nextId)
      ensures catalogue.products == old(catalogue.products)
      ensures id !in old(orders) ==> r.Err?
      ensures r.Err? ==> orders == old(orders) && activity.records == old(activity.records)
      ensures r.Ok? ==>
        id in old(orders) && r.value == old(orders)[id].(status := Cancelled, updatedAt := now)
        && orders == old(orders)[id := r.value]
        && var before := if orderLookupFails then None else Some(old(orders)[id].status);
        Appended(old(activity.records), activity.records, old(activity.nextId), profile,
          StatusEntry(id, OrderName(catalogue.products, old(orders)[id].productId, orderLookupFails), before, Cancelled), now)
    {
      r := UpdateOrderStatus(id, Cancelled, profile, now, orderLookupFails);
    }

    /** `getOrderById(id)`: the row, if the caller owns it or is an admin; `readFails` is whether the read errs. */
    function GetOrderById(id: Id, profile: Option<UserProfile>, readFails: bool): (r: Result<Order>)
      reads this
      ensures r.Ok? <==> !readFails && id in orders && CanAccess(orders[id], profile)
      ensures r.Ok? ==> r.value == orders[id]
      ensures readFails || id !in orders ==> r == Err(DatabaseErrorMessage)
      ensures !readFails && id in orders && !CanAccess(orders[id], profile) ==> r == Err(AccessDeniedMessage)
    {
      if readFails || id !in orders then Err(DatabaseErrorMessage)
      else if !CanAccess(orders[id], profile) then Err(AccessDeniedMessage)
      else Ok(orders[id])
    }

    /**
     * `getAllOrders(q)`: the selected orders, newest first, narrowed by the
     * search; `userNames` is the `name` column of the users table and
     * `readFails` is whether the query errs.
     */
    function GetAllOrders(q: OrderQuery, profile: Option<UserProfile>, userNames: map<Id, string>, readFails: bool): (r: Result<seq<Order>>)
      reads this, catalogue
      ensures r.Err? <==> readFails
      ensures r.Err? ==> r.error == DatabaseErrorMessage
      ensures r.Ok? ==> SortedDescBy(r.value, OrderCreatedAt)
      ensures r.Ok? ==> forall o :: o in r.value <==>
        o in OrderRows() && Selected(o, q, profile) && MatchesSearch(o, catalogue.products, userNames, q.search)
    {
      if readFails then Err(DatabaseErrorMessage)
      else
        var products := catalogue.products;
        var selected := SortDescBy(Filter(OrderRows(), (o: Order) => Selected(o, q, profile)), OrderCreatedAt);
        FilterMembers(OrderRows(), (o: Order) => Selected(o, q, profile));
        SameMembers(Filter(OrderRows(), (o: Order) => Selected(o, q, profile)), selected);
        var rows := Filter(selected, (o: Order) => MatchesSearch(o, products, userNames, q.search));
        FilterMembers(selected, (o: Order) => MatchesSearch(o, products, userNames, q.search));
        FilterKeepsSortedDesc(selected, (o: Order) => MatchesSearch(o, products, userNames, q.search), OrderCreatedAt);
        Ok(rows)
    }
  }

  // ---------------------------------------------------------------------------
  // Properties
  // ---------------------------------------------------------------------------

  /**
   * The permission rules: whoever may edit may read; an admin may do both on
   * any order; a non-admin may edit exactly their own pending orders.
   */
  lemma PermissionRules(o: Order, profile: Option<UserProfile>)
    ensures CanEdit(o, profile) ==> CanAccess(o, profile)
    ensures IsAdmin(profile) ==> CanAccess(o, profile) && CanEdit(o, profile)
    ensures !IsAdmin(profile) ==> (CanEdit(o, profile) <==> IsOwner(o, profile) && o.status == Pending)
    ensures profile.None? ==> !CanAccess(o, profile)
  {
  }

  /** `getOrderById` and the unfiltered `getAllOrders` apply the same visibility rule. */
  lemma ByIdAgreesWithList(book: OrderBook, id: Id, profile: Option<UserProfile>)
    requires id in book.orders
    ensures book.GetOrderById(id, profile, false).Ok? <==> Visible(book.orders[id], None, profile)
  {
  }

  /** After a corrected update that reprices, the stored price is the unit price times the stored quantity. */
  lemma RepricedTotalMatchesRow(existing: Order, d: OrderPatch, products: map<Id, Product>, lookupFails: bool, now: int)
    requires Reprice(existing, d, products, lookupFails).SetPrice?
    ensures var u := ApplyOrderPatch(existing, d, Reprice(existing, d, products, lookupFails), now);
      u.productId in products && u.totalPrice == products[u.productId].unitPrice * u.quantity
  {
  }

  /** When product and a non-zero quantity are both supplied, the code as written and the corrected one agree. */
  lemma RepriceAgreesWhenBothSupplied(existing: Order, d: OrderPatch, products: map<Id, Product>, lookupFails: bool)
    requires d.productId.Some? && Truthy(d.quantity)
    ensures RepriceAsWritten(d, products, lookupFails) == Reprice(existing, d, products, lookupFails)
  {
  }

  /** As written, supplying only a product sets the price to `NaN`; corrected, it is the unit price times the kept quantity. */
  lemma ProductOnlyUpdateGivesNaN(existing: Order, p: Product)
    ensures var d := OrderPatch(Some(p.id), None, None, None);
      var products := map[p.id := p];
      RepriceAsWritten(d, products, false) == SetNaN
      && Reprice(existing, d, products, false) == SetPrice(p.unitPrice * existing.quantity)
  {
  }

  /** As written, supplying only a quantity leaves the old price; corrected, it is repriced. */
  /**
   * `{quantity: 0}` is falsy in the code, so the price is left alone while
   * the stored quantity becomes 0; the corrected recomputation prices it at 0.
   */
  lemma ZeroQuantityUpdate(existing: Order, p: Product)
    requires existing.productId == p.id
    ensures var d := OrderPatch(None, Some(0), None, None);
      var products := map[p.id := p];
      RepriceAsWritten(d, products, false) == KeepPrice
      && Reprice(existing, d, products, false) == SetPrice(0)
      && ApplyOrderPatch(existing, d, Reprice(existing, d, products, false), 0).quantity == 0
  {
  }

  lemma QuantityOnlyUpdateKeepsStalePrice(existing: Order, p: Product, q: int)
    requires q != 0 && existing.productId == p.id
    ensures var d := OrderPatch(None, Some(q), None, None);
      var products := map[p.id := p];
      RepriceAsWritten(d, products, false) == KeepPrice
      && Reprice(existing, d, products, false) == SetPrice(p.unitPrice * q)
  {
  }
}
