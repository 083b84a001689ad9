/**
 * app/composables/usePackaging.ts: the `packaging_products` table and the
 * operations on it. The table is a map from id to row; ids are handed out in
 * increasing order, so listing the ids below `nextId` enumerates the rows.
 */
module Catalogue {
  import opened Wrappers
  import opened Strings
  import opened Sorting
  import opened Auth
  import opened Activity

  const SkuExistsMessage: string := "SKU already exists"
  const InsufficientStockMessage: string := "Insufficient stock"
  const UnknownProductName: string := "Unknown Product"
  const DefaultLowStockThreshold: int := 10

  /** A `PackagingProduct` row; prices are in cents, instants in milliseconds. */
  datatype Product = Product(
    id: Id,
    name: string,
    description: Option<string>,
    sku: string,
    unit: string,
    unitPrice: int,
    stock: int,
    imageUrl: Option<string>,
    category: Option<string>,
    isActive: bool,
    createdAt: int,
    updatedAt: int)

  /** `CreatePackagingData`: an omitted optional text is "", an omitted `is_active` is none. */
  datatype NewProduct = NewProduct(
    name: string,
    description: string,
    sku: string,
    unit: string,
    unitPrice: int,
    stock: int,
    imageUrl: string,
    category: string,
    isActive: Option<bool>)

  /** `UpdatePackagingData`: the fields supplied. */
  datatype ProductPatch = ProductPatch(
    name: Option<string>,
    description: Option<string>,
    sku: Option<string>,
    unit: Option<string>,
    unitPrice: Option<int>,
    stock: Option<int>,
    imageUrl: Option<string>,
    category: Option<string>,
    isActive: Option<bool>)

  /** `value || null` */
  function OrNull(s: string): (r: Option<string>)
    ensures r.None? <==> s == ""
    ensures r.Some? ==> r.value == s
  {
    if s == "" then None else Some(s)
  }

  /** The row `createPackaging` inserts, at id `id` and clock reading `now`. */
  function NewRow(id: Id, d: NewProduct, now: int): (p: Product)
    ensures p.id == id && p.name == d.name && p.sku == d.sku && p.unit == d.unit
    ensures p.unitPrice == d.unitPrice && p.stock == d.stock
    ensures p.isActive <==> d.isActive != Some(false)
    ensures p.description == OrNull(d.description) && p.imageUrl == OrNull(d.imageUrl) && p.category == OrNull(d.category)
    ensures p.createdAt == now && p.updatedAt == now
  {
    Product(id, d.name, OrNull(d.description), d.sku, d.unit, d.unitPrice, d.stock,
      OrNull(d.imageUrl), OrNull(d.category), if d.isActive.Some? then d.isActive.value else true, now, now)
  }

  /** A required column under a patch: a supplied value replaces it, an omitted one keeps it. */
  function Patched<T>(update: Option<T>, current: T): (v: T)
    ensures update.None? ==> v == current
    ensures update.Some? ==> v == update.value
  {
    if update.Some? then update.value else current
  }

  /** A nullable text column under a patch: a supplied text replaces it, an omitted one keeps it. */
  function PatchedOptional(update: Option<string>, current: Option<string>): (v: Option<string>)
    ensures update.None? ==> v == current
    ensures update.Some? ==> v == update
  {
    if update.Some? then update else current
  }

  /** `{ ...data, updated_at }` applied to a row: supplied fields replace, all others stay. */
  function ApplyPatch(p: Product, d: ProductPatch, now: int): (q: Product)
    ensures q.id == p.id && q.createdAt == p.createdAt && q.updatedAt == now
    ensures d.name.None? ==> q.name == p.name
    ensures d.sku.None? ==> q.sku == p.sku
    ensures d.stock.None? ==> q.stock == p.stock
    ensures d.isActive.None? ==> q.isActive == p.isActive
    ensures d.name.Some? ==> q.name == d.name.value
    ensures d.sku.Some? ==> q.sku == d.sku.value
    ensures d.stock.Some? ==> q.stock == d.stock.value
    ensures d.isActive.Some? ==> q.isActive == d.isActive.value
    ensures d.unit.None? ==> q.unit == p.unit
    ensures d.unit.Some? ==> q.unit == d.unit.value
    ensures d.unitPrice.None? ==> q.unitPrice == p.unitPrice
    ensures d.unitPrice.Some? ==> q.unitPrice == d.unitPrice.value
    ensures d.description.None? ==> q.description == p.description
    ensures d.description.Some? ==> q.description == d.description
    ensures d.imageUrl.None? ==> q.imageUrl == p.imageUrl
    ensures d.imageUrl.Some? ==> q.imageUrl == d.imageUrl
    ensures d.category.None? ==> q.category == p.category
    ensures d.category.Some? ==> q.category == d.category
  {
    Product(
      p.id,
      Patched(d.name, p.name),
      PatchedOptional(d.description, p.description),
      Patched(d.sku, p.sku),
      Patched(d.unit, p.unit),
      Patched(d.unitPrice, p.unitPrice),
      Patched(d.stock, p.stock),
      PatchedOptional(d.imageUrl, p.imageUrl),
      PatchedOptional(d.category, p.category),
      Patched(d.isActive, p.isActive),
      p.createdAt,
      now)
  }

  /** The column names of `UpdatePackagingData`. */
  const PatchColumns: set<string> :=
    {"name", "description", "sku", "unit", "unit_price", "stock_quantity", "image_url", "category", "is_active"}

  /** A boolean as JSON writes it. */
  function BoolText(b: bool): (t: string)
    ensures t == "true" <==> b
  {
    if b then "true" else "false"
  }

  /** The `changes` detail of an update: every supplied field under its column name, as JSON text. */
  function PatchDetails(d: ProductPatch): (r: map<string, string>)
    ensures r.Keys <= PatchColumns
    ensures ("name" in r <==> d.name.Some?) && (d.name.Some? ==> r["name"] == d.name.value)
    ensures ("description" in r <==> d.description.Some?) && (d.description.Some? ==> r["description"] == d.description.value)
    ensures ("sku" in r <==> d.sku.Some?) && (d.sku.Some? ==> r["sku"] == d.sku.value)
    ensures ("unit" in r <==> d.unit.Some?) && (d.unit.Some? ==> r["unit"] == d.unit.value)
    ensures ("unit_price" in r <==> d.unitPrice.Some?) && (d.unitPrice.Some? ==> r["unit_price"] == IntToString(d.unitPrice.value))
    ensures ("stock_quantity" in r <==> d.stock.Some?) && (d.stock.Some? ==> r["stock_quantity"] == IntToString(d.stock.value))
    ensures ("image_url" in r <==> d.imageUrl.Some?) && (d.imageUrl.Some? ==> r["image_url"] == d.imageUrl.value)
    ensures ("category" in r <==> d.category.Some?) && (d.category.Some? ==> r["category"] == d.category.value)
    ensures ("is_active" in r <==> d.isActive.Some?) && (d.isActive.Some? ==> (r["is_active"] == "true" <==> d.isActive.value))
  {
    map c | c in PatchColumns && PatchValue(d, c).Some? :: PatchValue(d, c).value
  }

  /** The JSON text the patch supplies for column `c`, if it supplies one. */
  function PatchValue(d: ProductPatch, c: string): Option<string> {
    match c
    case "name" => d.name
    case "description" => d.description
    case "sku" => d.sku
    case "unit" => d.unit
    case "unit_price" => if d.unitPrice.Some? then Some(IntToString(d.unitPrice.value)) else None
    case "stock_quantity" => if d.stock.Some? then Some(IntToString(d.stock.value)) else None
    case "image_url" => d.imageUrl
    case "category" => d.category
    case "is_active" => if d.isActive.Some? then Some(BoolText(d.isActive.value)) else None
    case _ => None
  }

  /** The activity entry `createPackaging` logs for the inserted row. */
  function CreatedEntry(row: Product): Entry {
    Entry(Create, PackagingEntity, Some(row.id), Some(row.name),
      map["sku" := row.sku, "unit_price" := IntToString(row.unitPrice), "stock_quantity" := IntToString(row.stock)])
  }

  /** The activity entry `updatePackaging` logs for the updated row and the supplied fields. */
  function UpdatedEntry(row: Product, d: ProductPatch): Entry {
    Entry(Update, PackagingEntity, Some(row.id), Some(row.name), PatchDetails(d))
  }

  /** Every row sits under its own id, below the next id to be given out. */
  ghost predicate WellFormed(products: map<Id, Product>, nextId: Id) {
    forall id :: id in products ==> products[id].id == id && id < nextId
  }

  /** No two rows share a SKU. */
  ghost predicate SkusUnique(products: map<Id, Product>) {
    forall a, b :: a in products && b in products && a != b ==> products[a].sku != products[b].sku
  }

  /** No row holds negative stock. */
  ghost predicate StocksNonNegative(products: map<Id, Product>) {
    forall id :: id in products ==> products[id].stock >= 0
  }

  /** The duplicate-SKU lookup: a row other than `except` already holds `sku`. */
  predicate SkuTaken(products: map<Id, Product>, sku: string, except: Option<Id>) {
    exists id :: id in products && products[id].sku == sku && except != Some(id)
  }

  /** The rows of a table with ids below `n`, by ascending id. */
  function RowsBelow<R(==)>(table: map<Id, R>, n: nat): (rows: seq<R>)
    ensures forall i :: 0 <= i < |rows| ==> rows[i] in table.Values
    ensures forall id :: id in table && id < n ==> table[id] in rows
  {
    if n == 0 then []
    else
      var rows := RowsBelow(table, n - 1);
      if n - 1 in table then rows + [table[n - 1]] else rows
  }

  /** `stock_quantity + adjustment`, refused when it would go below zero. */
  function AdjustedQuantity(stock: int, adjustment: int): (r: Result<int>)
    ensures r.Ok? <==> stock + adjustment >= 0
    ensures r.Ok? ==> r.value == stock + adjustment && r.value >= 0
    ensures r.Err? ==> r.error == InsufficientStockMessage
  {
    if stock + adjustment < 0 then Err(InsufficientStockMessage) else Ok(stock + adjustment)
  }

  function CreatedAtOf(p: Product): int {
    p.createdAt
  }

  function StockOf(p: Product): int {
    p.stock
  }

  /** The `getAllPackaging` filters; "" stands for an absent search or category. */
  predicate Listed(p: Product, activeOnly: bool, search: string, category: string) {
    (!activeOnly || p.isActive)
    && (search == "" || IncludesIgnoringCase(p.name, search) || IncludesIgnoringCase(p.sku, search))
    && (category == "" || p.category == Some(category))
  }

  /** The non-null categories of `rows`, in row order. */
  function CategoriesOf(rows: seq<Product>): (cs: seq<string>)
    ensures forall c :: c in cs <==> exists i :: 0 <= i < |rows| && rows[i].category == Some(c)
  {
    if rows == [] then []
    else
      var rest := CategoriesOf(rows[1..]);
      assert forall i :: 1 <= i < |rows| ==> rows[i] == rows[1..][i - 1];
      if rows[0].category.Some? then [rows[0].category.value] + rest else rest
  }

  /** `[...new Set(xs)]`: each value once, in order of first appearance. */
  function FirstSeen(xs: seq<string>): (r: seq<string>)
    ensures forall x :: x in r <==> x in xs
    ensures forall i, j :: 0 <= i < j < |r| ==> r[i] != r[j]
  {
    if xs == [] then []
    else
      var init := xs[..|xs| - 1];
      var prev := FirstSeen(init);
      assert xs == init + [xs[|xs| - 1]];
      if xs[|xs| - 1] in prev then prev else prev + [xs[|xs| - 1]]
  }

  class Catalogue {
    /** The `packaging_products` table. */
    var products: map<Id, Product>
    var nextId: Id
    const activity: ActivityLog

    constructor (activity: ActivityLog)
      ensures products == map[] && nextId == 0 && this.activity == activity
    {
      products := map[];
      nextId := 0;
      this.activity := activity;
    }

    /** The table's rows by ascending id. */
    function Rows(): seq<Product>
      reads this
    {
      RowsBelow(products, nextId)
    }

    /**
     * `createPackaging(d)` by `profile` at `now`. `skuLookupFails` is whether
     * the duplicate lookup errs; the code ignores that error and goes on to
     * insert.
     */
    method CreatePackaging(d: NewProduct, profile: Option<UserProfile>, now: int, skuLookupFails: bool) returns (r: Result<Product>)
      requires WellFormed(products, nextId)
      modifies this, activity
      ensures WellFormed(products, nextId)
      ensures r == Err(SkuExistsMessage) <==> !skuLookupFails && SkuTaken(old(products), d.sku, None)
      ensures r.Err? ==> products == old(products) && nextId == old(nextId) && activity.records == old(activity.records)
      ensures r.Ok? ==>
        r.value == NewRow(old(nextId), d, now)
        && products == old(products)[old(nextId) := r.value] && nextId == old(nextId) + 1
      ensures r.Ok? ==> Appended(old(activity.records), activity.records, old(activity.nextId), profile, CreatedEntry(r.value), now)
      ensures r.Ok? && SkusUnique(old(products)) && !skuLookupFails ==> SkusUnique(products)
    {
      if !skuLookupFails && SkuTaken(products, d.sku, None) {
        return Err(SkuExistsMessage);
      }
      var insertFails: bool := *;
      if insertFails {
        return Err(DatabaseErrorMessage);
      }
      var row := NewRow(nextId, d, now);
      products := products[nextId := row];
      nextId := nextId + 1;
      var _ := activity.LogActivity(profile, CreatedEntry(row), now);
      return Ok(row);
    }

    /**
     * `updatePackaging(id, d)`. A non-empty supplied SKU held by another row
     * is refused first; a missing row makes the update error.
     */
    method UpdatePackaging(id: Id, d: ProductPatch, profile: Option<UserProfile>, now: int, skuLookupFails: bool) returns (r: Result<Product>)
      requires WellFormed(products, nextId)
      modifies this, activity
      ensures WellFormed(products, nextId) && nextId == old(nextId)
      ensures r == Err(SkuExistsMessage) <==>
        d.sku.Some? && d.sku.value != "" && !skuLookupFails && SkuTaken(old(products), d.sku.value, Some(id))
      ensures id !in old(products) ==> r.Err?
      ensures r.Err? ==> products == old(products) && activity.records == old(activity.records)
      ensures r.Ok? ==>
        id in old(products) && r.value == ApplyPatch(old(products)[id], d, now) && products == old(products)[id := r.value]
      ensures r.Ok? ==> Appended(old(activity.records), activity.records, old(activity.nextId), profile, UpdatedEntry(r.value, d), now)
      ensures r.Ok? && SkusUnique(old(products)) && !skuLookupFails && d.sku != Some("") ==> SkusUnique(products)
    {
      if d.sku.Some? && d.sku.value != "" && !skuLookupFails && SkuTaken(products, d.sku.value, Some(id)) {
        return Err(SkuExistsMessage);
      }
      if id !in products {
        return Err(DatabaseErrorMessage);
      }
      var updateFails: bool := *;
      if updateFails {
        return Err(DatabaseErrorMessage);
      }
      var row := ApplyPatch(products[id], d, now);
      products := products[id := row];
      var _ := activity.LogActivity(profile, UpdatedEntry(row, d), now);
      return Ok(row);
    }

    /** The name logged for a product: its name, or "Unknown Product" when it cannot be read. */
    function LoggedName(id: Id, nameLookupFails: bool): (name: string)
      reads this
      ensures name != ""
      ensures !nameLookupFails && id in products && products[id].name != "" ==> name == products[id].name
      ensures nameLookupFails || id !in products || products[id].name == "" ==> name == UnknownProductName
    {
      if !nameLookupFails && id in products && products[id].name != "" then products[id].name else UnknownProductName
    }

    /** The shared body of the soft delete and the reactivation: set `is_active` and log. */
    method SetActive(id: Id, active: bool, action: Action, profile: Option<UserProfile>, now: int, nameLookupFails: bool) returns (r: Result<()>)
      requires WellFormed(products, nextId)
      modifies this, activity
      ensures WellFormed(products, nextId) && nextId == old(nextId)
      ensures r.Err? ==> products == old(products) && activity.records == old(activity.records)
      ensures r.Ok? ==>
        products == (if id in old(products) then old(products)[id := old(products)[id].(isActive := active, updatedAt := now)] else old(products))
        && Appended(old(activity.records), activity.records, old(activity.nextId), profile,
             Entry(action, PackagingEntity, Some(id), Some(old(LoggedName(id, nameLookupFails))), map[]), now)
    {
      var name := LoggedName(id, nameLookupFails);
      var updateFails: bool := *;
      if updateFails {
        return Err(DatabaseErrorMessage);
      }
      if id in products {
        products := products[id := products[id].(isActive := active, updatedAt := now)];
      }
      var _ := activity.LogActivity(profile, Entry(action, PackagingEntity, Some(id), Some(name), map[]), now);
      return Ok(());
    }

    /** `deletePackaging(id)`: the soft delete, which keeps the row. */
    method DeletePackaging(id: Id, profile: Option<UserProfile>, now: int, nameLookupFails: bool) returns (r: Result<()>)
      requires WellFormed(products, nextId)
      modifies this, activity
      ensures WellFormed(products, nextId) && nextId == old(nextId)
      ensures products.Keys == old(products).Keys
      ensures r.Err? ==> products == old(products)
      ensures r.Ok? ==> id in products ==> !products[id].isActive
      ensures forall k :: k in products && k != id ==> products[k] == old(products)[k]
      ensures r.Ok? ==>
        products == if id in old(products) then old(products)[id := old(products)[id].(isActive := false, updatedAt := now)] else old(products)
      ensures r.Ok? ==>
        Appended(old(activity.records), activity.records, old(activity.nextId), profile,
          Entry(Delete, PackagingEntity, Some(id), Some(old(LoggedName(id, nameLookupFails))), map[]), now)
    {
      r := SetActive(id, false, Delete, profile, now, nameLookupFails);
    }

    /** `reactivatePackaging(id)` */
    method ReactivatePackaging(id: Id, profile: Option<UserProfile>, now: int, nameLookupFails: bool) returns (r: Result<()>)
      requires WellFormed(products, nextId)
      modifies this, activity
      ensures WellFormed(products, nextId) && nextId == old(nextId)
      ensures products.Keys == old(products).Keys
      ensures r.Err? ==> products == old(products)
      ensures r.Ok? ==> id in products ==> products[id].isActive
      ensures forall k :: k in products && k != id ==> products[k] == old(products)[k]
      ensures r.Ok? ==>
        products == if id in old(products) then old(products)[id := old(products)[id].(isActive := true, updatedAt := now)] else old(products)
      ensures r.Ok? ==>
        Appended(old(activity.records), activity.records, old(activity.nextId), profile,
          Entry(Reactivate, PackagingEntity, Some(id), Some(old(LoggedName(id, nameLookupFails))), map[]), now)
    {
      r := SetActive(id, true, Reactivate, profile, now, nameLookupFails);
    }

    /** `permanentlyDeletePackaging(id)`: the hard delete; nothing is logged. */
    method PermanentlyDeletePackaging(id: Id) returns (r: Result<()>)
      requires WellFormed(products, nextId)
      modifies this
      ensures activity.records == old(activity.records)
      ensures WellFormed(products, nextId) && nextId == old(nextId)
      ensures r.Err? ==> products == old(products)
      ensures r.Ok? ==> products == old(products) - {id}
    {
      var deleteFails: bool := *;
      if deleteFails {
        return Err(DatabaseErrorMessage);
      }
      products := products - {id};
      return Ok(());
    }

    /**
     * `adjustStock(id, adjustment)`: read the stock, refuse a negative result,
     * else write the new quantity. Failed reads and writes change nothing.
     */
    method AdjustStock(id: Id, adjustment: int, now: int) returns (r: Result<()>)
      requires WellFormed(products, nextId)
      modifies this
      ensures WellFormed(products, nextId) && nextId == old(nextId)
      ensures id !in old(products) ==> r.Err?
      ensures r == Err(InsufficientStockMessage) ==> id in old(products) && old(products)[id].stock + adjustment < 0
      ensures id in old(products) && old(products)[id].stock + adjustment < 0 ==> r.Err?
      ensures r.Err? ==> products == old(products)
      ensures r.Ok? ==>
        id in old(products) && id in products
        && AdjustedQuantity(old(products)[id].stock, adjustment) == Ok(products[id].stock)
        && products == old(products)[id := old(products)[id].(stock := old(products)[id].stock + adjustment, updatedAt := now)]
      ensures StocksNonNegative(old(products)) ==> StocksNonNegative(products)
    {
      if id !in products {
        return Err(DatabaseErrorMessage);
      }
      var fetchFails: bool := *;
      if fetchFails {
        return Err(DatabaseErrorMessage);
      }
      var quantity := AdjustedQuantity(products[id].stock, adjustment);
      if quantity.Err? {
        return Err(quantity.error);
      }
      var writeFails: bool := *;
      if writeFails {
        return Err(DatabaseErrorMessage);
      }
      products := products[id := products[id].(stock := quantity.value, updatedAt := now)];
      return Ok(());
    }

    /** `getAllPackaging(options)`: the matching rows, newest first; `readFails` is whether the query errs. */
    function GetAllPackaging(activeOnly: bool, search: string, category: string, readFails: bool): (r: Result<seq<Product>>)
      reads this
      ensures r.Err? <==> readFails
      ensures r.Err? ==> r.error == DatabaseErrorMessage
      ensures r.Ok? ==> SortedDescBy(r.value, CreatedAtOf)
      ensures r.Ok? ==> forall p :: p in r.value <==> p in Rows() && Listed(p, activeOnly, search, category)
      ensures r.Ok? ==> |r.value| <= |Rows()|
    {
      if readFails then Err(DatabaseErrorMessage)
      else
        var listed := Filter(Rows(), (p: Product) => Listed(p, activeOnly, search, category));
        FilterMembers(Rows(), (p: Product) => Listed(p, activeOnly, search, category));
        var rows := SortDescBy(listed, CreatedAtOf);
        SameMembers(listed, rows);
        Ok(rows)
    }

    /** `getCategories()`: the distinct non-empty categories; `readFails` is whether the query errs. */
    function GetCategories(readFails: bool): (r: Result<seq<string>>)
      reads this
      ensures r.Err? <==> readFails
      ensures r.Err? ==> r.error == DatabaseErrorMessage
      ensures r.Ok? ==> forall i, j :: 0 <= i < j < |r.value| ==> r.value[i] != r.value[j]
      ensures r.Ok? ==> forall c :: c in r.value <==> c != "" && exists i :: 0 <= i < |Rows()| && Rows()[i].category == Some(c)
    {
      if readFails then Err(DatabaseErrorMessage)
      else
        var distinct := FirstSeen(CategoriesOf(Rows()));
        var cs := Filter(distinct, c => c != "");
        FilterMembers(distinct, c => c != "");
        FilterKeepsDistinct(distinct, c => c != "");
        Ok(cs)
    }

    /** `getLowStockProducts(threshold)`: active rows below the threshold, by ascending stock. */
    function GetLowStockProducts(threshold: int, readFails: bool): (r: Result<seq<Product>>)
      reads this
      ensures r.Err? <==> readFails
      ensures r.Err? ==> r.error == DatabaseErrorMessage
      ensures r.Ok? ==> SortedBy(r.value, StockOf)
      ensures r.Ok? ==> forall p :: p in r.value <==> p in Rows() && p.isActive && p.stock < threshold
    {
      if readFails then Err(DatabaseErrorMessage)
      else
        var low := Filter(Rows(), (p: Product) => p.isActive && p.stock < threshold);
        FilterMembers(Rows(), (p: Product) => p.isActive && p.stock < threshold);
        var rows := SortBy(low, StockOf);
        SameMembers(low, rows);
        Ok(rows)
    }
  }

  /** Filtering a sequence without repeats leaves one without repeats. */
  lemma {:induction false} FilterKeepsDistinct(s: seq<string>, p: string -> bool)
    requires forall i, j :: 0 <= i < j < |s| ==> s[i] != s[j]
    ensures forall i, j :: 0 <= i < j < |Filter(s, p)| ==> Filter(s, p)[i] != Filter(s, p)[j]
  {
    if s != [] {
      FilterKeepsDistinct(s[1..], p);
      assert forall i, j :: 0 <= i < j < |s[1..]| ==> s[1..][i] != s[1..][j];
      assert s[0] !in s[1..];
      assert s[0] !in Filter(s[1..], p);
    }
  }

  /** A successful adjustment followed by the opposite one restores the stock. */
  lemma AdjustRoundTrip(stock: int, adjustment: int)
    requires stock >= 0
    requires AdjustedQuantity(stock, adjustment).Ok?
    ensures AdjustedQuantity(AdjustedQuantity(stock, adjustment).value, -adjustment) == Ok(stock)
  {
  }

  /** Patching twice with the same fields is patching once. */
  lemma ApplyPatchIdempotent(p: Product, d: ProductPatch, now: int)
    ensures ApplyPatch(ApplyPatch(p, d, now), d, now) == ApplyPatch(p, d, now)
  {
  }

  /** A patch that supplies nothing changes only `updated_at`. */
  lemma EmptyPatchTouchesOnlyUpdatedAt(p: Product, now: int)
    ensures ApplyPatch(p, ProductPatch(None, None, None, None, None, None, None, None, None), now) == p.(updatedAt := now)
  {
  }
}
