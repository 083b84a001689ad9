/**
 * app/composables/useDashboard.ts: the dashboard counts, the orders-by-status
 * chart, the top products and the low-stock alerts.
 */
module Dashboard {
  import opened Wrappers
  import opened Sorting
  import opened Catalogue
  import opened Orders

  /** The answer to a `count: "exact"` query: an error, or a count that may be null. */
  datatype CountAnswer = CountFailed(message: string) | Counted(count: Option<nat>)

  /** `count || 0` */
  function CountOrZero(a: CountAnswer): nat {
    if a.Counted? && a.count.Some? then a.count.value else 0
  }

  /** The message of the first failed answer, if any. */
  function FirstFailure(answers: seq<CountAnswer>): (m: Option<string>)
    ensures m.None? <==> forall i :: 0 <= i < |answers| ==> answers[i].Counted?
    ensures m.Some? ==>
      exists i :: 0 <= i < |answers| && answers[i].CountFailed? && m.value == answers[i].message
        && forall j :: 0 <= j < i ==> answers[j].Counted?
  {
    if answers == [] then None
    else if answers[0].CountFailed? then Some(answers[0].message)
    else
      var m := FirstFailure(answers[1..]);
      assert forall i :: 1 <= i < |answers| ==> answers[i] == answers[1..][i - 1];
      m
  }

  lemma FirstFailureAt(answers: seq<CountAnswer>, i: nat)
    requires i < |answers| && answers[i].CountFailed?
    requires forall j :: 0 <= j < i ==> answers[j].Counted?
    ensures FirstFailure(answers) == Some(answers[i].message)
  {
  }

  datatype Metrics = Metrics(totalOrders: nat, totalProducts: nat, totalUsers: nat, pendingOrders: nat)

  /**
   * `getMetrics`: four counts asked in turn (all orders, active products,
   * active users, pending orders); the first error aborts, a null count is 0.
   */
  function GetMetrics(orders: CountAnswer, products: CountAnswer, users: CountAnswer, pending: CountAnswer): (r: Result<Metrics>)
    ensures r.Ok? <==> orders.Counted? && products.Counted? && users.Counted? && pending.Counted?
    ensures orders.CountFailed? ==> r == Err(orders.message)
    ensures orders.Counted? && products.CountFailed? ==> r == Err(products.message)
    ensures orders.Counted? && products.Counted? && users.CountFailed? ==> r == Err(users.message)
    ensures orders.Counted? && products.Counted? && users.Counted? && pending.CountFailed? ==> r == Err(pending.message)
    ensures r.Ok? ==>
      r.value == Metrics(CountOrZero(orders), CountOrZero(products), CountOrZero(users), CountOrZero(pending))
  {
    if orders.CountFailed? then Err(orders.message)
    else if products.CountFailed? then Err(products.message)
    else if users.CountFailed? then Err(users.message)
    else if pending.CountFailed? then Err(pending.message)
    else Ok(Metrics(CountOrZero(orders), CountOrZero(products), CountOrZero(users), CountOrZero(pending)))
  }

  lemma NullCountsAreZero()
    ensures GetMetrics(Counted(None), Counted(Some(3)), Counted(None), Counted(Some(0))) == Ok(Metrics(0, 3, 0, 0))
  {
  }

  // ---------------------------------------------------------------------------
  // Orders by status
  // ---------------------------------------------------------------------------

  const AllStatuses: seq<Status> := [Pending, Processing, Completed, Cancelled]

  /** The answers, in the order the loop asks for them. */
  function Answers(answer: Status -> CountAnswer): (a: seq<CountAnswer>)
    ensures |a| == 4 && forall i :: 0 <= i < 4 ==> a[i] == answer(AllStatuses[i])
  {
    [answer(Pending), answer(Processing), answer(Completed), answer(Cancelled)]
  }

  /** The `results` object after the first `n` statuses. */
  function StatusCounts(answer: Status -> CountAnswer, n: nat): map<string, nat>
    requires n <= 4
  {
    if n == 0 then map[]
    else StatusCounts(answer, n - 1)[StatusName(AllStatuses[n - 1]) := CountOrZero(answer(AllStatuses[n - 1]))]
  }

  /**
   * `getOrdersByStatus`, with `answer(s)` the answer to the count of status
   * `s`: ask the four statuses in turn, abort on the first error.
   */
  method GetOrdersByStatus(answer: Status -> CountAnswer) returns (r: Result<map<string, nat>>)
    ensures r.Err? <==> FirstFailure(Answers(answer)).Some?
    ensures r.Err? ==> r.error == FirstFailure(Answers(answer)).value
    ensures r.Ok? ==> r.value == StatusCounts(answer, 4)
  {
    var results: map<string, nat> := map[];
    for i := 0 to 4
      invariant results == StatusCounts(answer, i)
      invariant forall j :: 0 <= j < i ==> Answers(answer)[j].Counted?
    {
      var a := answer(AllStatuses[i]);
      if a.CountFailed? {
        FirstFailureAt(Answers(answer), i);
        return Err(a.message);
      }
      results := results[StatusName(AllStatuses[i]) := CountOrZero(a)];
    }
    return Ok(results);
  }

  /** The chart data has exactly the four status keys, each with its count or 0. */
  lemma StatusCountsComplete(answer: Status -> CountAnswer)
    ensures StatusCounts(answer, 4).Keys == {"pending", "processing", "completed", "cancelled"}
    ensures forall s: Status :: StatusCounts(answer, 4)[StatusName(s)] == CountOrZero(answer(s))
  {
    var m := StatusCounts(answer, 4);
    forall s: Status ensures m[StatusName(s)] == CountOrZero(answer(s)) {
      match s
      case Pending => assert StatusName(Processing) != "pending" && StatusName(Completed) != "pending" && StatusName(Cancelled) != "pending";
      case Processing => assert StatusName(Completed) != "processing" && StatusName(Cancelled) != "processing";
      case Completed => assert StatusName(Cancelled) != "completed";
      case Cancelled =>
    }
  }

  // ---------------------------------------------------------------------------
  // Top products
  // ---------------------------------------------------------------------------

  /** A fetched row: quantity, product id and the joined product's name. */
  datatype OrderLine = OrderLine(quantity: int, productId: Id, productName: Option<string>)

  /** An entry of the `productMap`. */
  datatype ProductTotal = ProductTotal(id: Id, name: string, totalQuantity: int)

  const UnknownProductLabel: string := "Unknown"

  /** `order.product?.name || "Unknown"` */
  function NameOr(line: OrderLine): string {
    if line.productName.Some? && line.productName.value != "" then line.productName.value else UnknownProductLabel
  }

  function LineQuantity(o: Order): int {
    o.quantity
  }

  function TotalOf(t: ProductTotal): int {
    t.totalQuantity
  }

  /** The row `getTopProducts` fetches for an order. */
  function LineOf(o: Order, products: map<Id, Product>): OrderLine {
    OrderLine(o.quantity, o.productId, if o.productId in products then Some(products[o.productId].name) else None)
  }

  /** The query of `getTopProducts`: orders by descending quantity, at most `limit` of them. */
  function FetchedLines(orders: seq<Order>, products: map<Id, Product>, limit: nat): (lines: seq<OrderLine>)
    ensures |lines| <= limit
    ensures |lines| == if limit < |orders| then limit else |orders|
    ensures forall i, j :: 0 <= i < j < |lines| ==> lines[i].quantity >= lines[j].quantity
    ensures forall k :: 0 <= k < |lines| ==> exists o :: o in orders && lines[k] == LineOf(o, products)
    ensures |lines| == |TopOrders(orders, limit)|
    ensures forall k :: 0 <= k < |lines| ==> lines[k] == LineOf(TopOrders(orders, limit)[k], products)
    ensures forall o :: o in multiset(orders) - multiset(TopOrders(orders, limit)) ==>
      forall k :: 0 <= k < |lines| ==> o.quantity <= lines[k].quantity
  {
    var top := TopOrders(orders, limit);
    var lines := LinesOf(top, products);
    forall k | 0 <= k < |lines|
      ensures exists o :: o in orders && lines[k] == LineOf(o, products)
    {
      assert top[k] in orders && lines[k] == LineOf(top[k], products);
    }
    lines
  }

  /** The fetched row of each order, in order. */
  function LinesOf(top: seq<Order>, products: map<Id, Product>): (lines: seq<OrderLine>)
    ensures |lines| == |top|
    ensures forall k :: 0 <= k < |top| ==> lines[k] == LineOf(top[k], products) && lines[k].quantity == top[k].quantity
  {
    seq(|top|, i requires 0 <= i < |top| => LineOf(top[i], products))
  }

  /** `order("quantity", { ascending: false }).limit(limit)` on the orders themselves. */
  function TopOrders(orders: seq<Order>, limit: nat): (top: seq<Order>)
    ensures |top| == if limit < |orders| then limit else |orders|
    ensures forall i, j :: 0 <= i < j < |top| ==> top[i].quantity >= top[j].quantity
    ensures forall k :: 0 <= k < |top| ==> top[k] in orders
    ensures multiset(top) <= multiset(orders)
    ensures forall o :: o in multiset(orders) - multiset(top) ==> forall k :: 0 <= k < |top| ==> o.quantity <= top[k].quantity
  {
    TopOrdersFacts(orders, limit);
    Take(SortDescBy(orders, LineQuantity), limit)
  }

  /** The facts `TopOrders` promises, about the sorted and cut list itself. */
  lemma TopOrdersFacts(orders: seq<Order>, limit: nat)
    ensures var top := Take(SortDescBy(orders, LineQuantity), limit);
      && (forall i, j :: 0 <= i < j < |top| ==> top[i].quantity >= top[j].quantity)
      && (forall k :: 0 <= k < |top| ==> top[k] in orders)
      && multiset(top) <= multiset(orders)
      && (forall o :: o in multiset(orders) - multiset(top) ==> forall k :: 0 <= k < |top| ==> o.quantity <= top[k].quantity)
  {
    var sorted := SortDescBy(orders, LineQuantity);
    var top := Take(sorted, limit);
    TakeSortedDesc(sorted, LineQuantity, limit);
    forall k | 0 <= k < |top|
      ensures top[k] in orders
    {
      assert top[k] in multiset(top);
    }
    forall i, j | 0 <= i < j < |top|
      ensures top[i].quantity >= top[j].quantity
    {
      assert top[i] == sorted[i] && top[j] == sorted[j];
      assert LineQuantity(sorted[i]) >= LineQuantity(sorted[j]);
    }
    forall o | o in multiset(orders) - multiset(top)
      ensures forall k :: 0 <= k < |top| ==> o.quantity <= top[k].quantity
    {
      assert forall k :: 0 <= k < |top| ==> LineQuantity(o) <= LineQuantity(top[k]);
    }
  }

  /** The position of the entry for `id`, or -1. */
  function GroupIndex(groups: seq<ProductTotal>, id: Id): (k: int)
    ensures -1 <= k < |groups|
    ensures k == -1 <==> forall j :: 0 <= j < |groups| ==> groups[j].id != id
    ensures k >= 0 ==> groups[k].id == id && forall j :: 0 <= j < k ==> groups[j].id != id
  {
    if groups == [] then -1
    else if groups[0].id == id then 0
    else
      var j := GroupIndex(groups[1..], id);
      assert forall k :: 1 <= k < |groups| ==> groups[k] == groups[1..][k - 1];
      if j == -1 then -1 else j + 1
  }

  /** One `forEach` step: add to the product's entry, or append a new entry. */
  function AddLine(groups: seq<ProductTotal>, line: OrderLine): seq<ProductTotal> {
    var k := GroupIndex(groups, line.productId);
    if k >= 0 then groups[k := groups[k].(totalQuantity := groups[k].totalQuantity + line.quantity)]
    else groups + [ProductTotal(line.productId, NameOr(line), line.quantity)]
  }

  /** The `productMap` values, in insertion order, after all rows. */
  function Aggregate(lines: seq<OrderLine>): seq<ProductTotal> {
    if lines == [] then [] else AddLine(Aggregate(lines[..|lines| - 1]), lines[|lines| - 1])
  }

  /** The sum of the quantities of the rows for `id`. */
  function SumFor(lines: seq<OrderLine>, id: Id): int {
    if lines == [] then 0
    else SumFor(lines[..|lines| - 1], id) + (if lines[|lines| - 1].productId == id then lines[|lines| - 1].quantity else 0)
  }

  function SumQuantities(lines: seq<OrderLine>): int {
    if lines == [] then 0 else SumQuantities(lines[..|lines| - 1]) + lines[|lines| - 1].quantity
  }

  function SumTotals(groups: seq<ProductTotal>): int {
    if groups == [] then 0 else SumTotals(groups[..|groups| - 1]) + groups[|groups| - 1].totalQuantity
  }

  predicate DistinctProductIds(groups: seq<ProductTotal>) {
    forall i, j :: 0 <= i < j < |groups| ==> groups[i].id != groups[j].id
  }

  /** Some row is for `id`. */
  predicate HasLine(lines: seq<OrderLine>, id: Id) {
    exists i :: 0 <= i < |lines| && lines[i].productId == id
  }

  /**
   * `getTopProducts(limit)`: fetch, fold the rows into a map from product id
   * to entry, sort the entries by descending total and keep `limit`. The
   * `position` map plays the part of the JavaScript `Map` keyed by id.
   */
  method GetTopProducts(book: OrderBook, limit: nat) returns (r: Result<seq<ProductTotal>>)
    ensures r.Ok? ==>
      r.value == Take(SortDescBy(Aggregate(FetchedLines(book.OrderRows(), book.catalogue.products, limit)), TotalOf), limit)
  {
    var fetchFails: bool := *;
    if fetchFails {
      return Err(DatabaseErrorMessage);
    }
    var groups := Fold(FetchedLines(book.OrderRows(), book.catalogue.products, limit));
    return Ok(Take(SortDescBy(groups, TotalOf), limit));
  }

  /** The `forEach` over the fetched rows. */
  method Fold(lines: seq<OrderLine>) returns (groups: seq<ProductTotal>)
    ensures groups == Aggregate(lines)
  {
    groups := [];
    var position: map<Id, nat> := map[];
    for i := 0 to |lines|
      invariant groups == Aggregate(lines[..i])
      invariant Indexes(position, groups)
    {
      AggregateStep(lines, i);
      var line := lines[i];
      if line.productId in position {
        UpdateKeepsIndexes(position, groups, line);
        var k := position[line.productId];
        groups := groups[k := groups[k].(totalQuantity := groups[k].totalQuantity + line.quantity)];
      } else {
        AppendKeepsIndexes(position, groups, line);
        position := position[line.productId := |groups|];
        groups := groups + [ProductTotal(line.productId, NameOr(line), line.quantity)];
      }
    }
    assert lines[..|lines|] == lines;
  }

  /** The aggregate of one more row is one more `forEach` step. */
  lemma AggregateStep(lines: seq<OrderLine>, i: nat)
    requires i < |lines|
    ensures Aggregate(lines[..i + 1]) == AddLine(Aggregate(lines[..i]), lines[i])
  {
    assert lines[..i + 1][..i] == lines[..i];
  }

  /** `position` maps exactly the ids present to their entries' positions. */
  ghost predicate Indexes(position: map<Id, nat>, groups: seq<ProductTotal>) {
    forall id :: IndexedAt(position, groups, id)
  }

  ghost predicate IndexedAt(position: map<Id, nat>, groups: seq<ProductTotal>, id: Id) {
    (id in position <==> GroupIndex(groups, id) >= 0) && (id in position ==> position[id] == GroupIndex(groups, id))
  }

  /** Adding to an existing entry: `position` already points at it and stays right. */
  lemma UpdateKeepsIndexes(position: map<Id, nat>, groups: seq<ProductTotal>, line: OrderLine)
    requires Indexes(position, groups) && line.productId in position
    ensures position[line.productId] == GroupIndex(groups, line.productId) >= 0
    ensures var k := position[line.productId];
      AddLine(groups, line) == groups[k := groups[k].(totalQuantity := groups[k].totalQuantity + line.quantity)]
    ensures Indexes(position, AddLine(groups, line))
  {
    assert IndexedAt(position, groups, line.productId);
    var next := AddLine(groups, line);
    SameIdsSameIndex(groups, next);
    forall id ensures IndexedAt(position, next, id) {
      assert IndexedAt(position, groups, id);
    }
  }

  /** Appending an entry for an id `position` does not hold. */
  lemma AppendKeepsIndexes(position: map<Id, nat>, groups: seq<ProductTotal>, line: OrderLine)
    requires Indexes(position, groups) && line.productId !in position
    ensures GroupIndex(groups, line.productId) == -1
    ensures AddLine(groups, line) == groups + [ProductTotal(line.productId, NameOr(line), line.quantity)]
    ensures Indexes(position[line.productId := |groups|], AddLine(groups, line))
  {
    assert IndexedAt(position, groups, line.productId);
    var x := ProductTotal(line.productId, NameOr(line), line.quantity);
    AppendIndex(groups, x);
    var pos, ext := position[line.productId := |groups|], groups + [x];
    forall id ensures IndexedAt(pos, ext, id) {
      assert IndexedAt(position, groups, id);
    }
  }

  /** Appending an entry for a new id puts that id at the end and moves no other. */
  lemma AppendIndex(groups: seq<ProductTotal>, x: ProductTotal)
    requires GroupIndex(groups, x.id) == -1
    ensures forall id :: GroupIndex(groups + [x], id) == if id == x.id then |groups| else GroupIndex(groups, id)
  {
    forall id ensures GroupIndex(groups + [x], id) == if id == x.id then |groups| else GroupIndex(groups, id) {
      AppendIndexAt(groups, x, id);
    }
  }

  lemma AppendIndexAt(groups: seq<ProductTotal>, x: ProductTotal, id: Id)
    requires GroupIndex(groups, x.id) == -1
    ensures GroupIndex(groups + [x], id) == if id == x.id then |groups| else GroupIndex(groups, id)
  {
    var ext := groups + [x];
    assert forall j :: 0 <= j < |groups| ==> ext[j] == groups[j];
    assert ext[|groups|] == x;
    var k := GroupIndex(groups, id);
    var e := GroupIndex(ext, id);
    if id == x.id {
      assert e >= 0;
    } else if k == -1 {
      assert forall j :: 0 <= j < |ext| ==> ext[j].id != id;
    } else {
      assert ext[k].id == id;
      assert e >= 0;
      assert !(e < k) && !(k < e);
    }
  }

  /** The ids present after one `forEach` step: those before, and the row's. */
  lemma AddLineIds(groups: seq<ProductTotal>, line: OrderLine)
    ensures forall id :: GroupIndex(AddLine(groups, line), id) >= 0 <==> GroupIndex(groups, id) >= 0 || id == line.productId
  {
    var k := GroupIndex(groups, line.productId);
    if k >= 0 {
      SameIdsSameIndex(groups, AddLine(groups, line));
    } else {
      AppendIndex(groups, ProductTotal(line.productId, NameOr(line), line.quantity));
    }
  }

  lemma SameIdsSameIndex(a: seq<ProductTotal>, b: seq<ProductTotal>)
    requires |a| == |b| && forall j :: 0 <= j < |a| ==> a[j].id == b[j].id
    ensures forall id :: GroupIndex(a, id) == GroupIndex(b, id)
  {
  }

  // ---------------------------------------------------------------------------
  // Properties
  // ---------------------------------------------------------------------------

  lemma {:induction false} AggregateDistinct(lines: seq<OrderLine>)
    ensures DistinctProductIds(Aggregate(lines))
    ensures |Aggregate(lines)| <= |lines|
  {
    if lines != [] {
      AggregateDistinct(lines[..|lines| - 1]);
    }
  }

  /** An entry exists for exactly the products that have a row. */
  lemma {:induction false} AggregateCovers(lines: seq<OrderLine>, id: Id)
    ensures GroupIndex(Aggregate(lines), id) >= 0 <==> HasLine(lines, id)
  {
    if lines != [] {
      var init := lines[..|lines| - 1];
      var line := lines[|lines| - 1];
      AggregateCovers(init, id);
      AddLineIds(Aggregate(init), line);
      assert forall i :: 0 <= i < |init| ==> init[i] == lines[i];
      if HasLine(init, id) {
        var i :| 0 <= i < |init| && init[i].productId == id;
        assert lines[i].productId == id;
      }
      if HasLine(lines, id) && !HasLine(init, id) {
        var i :| 0 <= i < |lines| && lines[i].productId == id;
        assert i == |lines| - 1;
      }
    }
  }

  /** Each entry's total is the sum of its product's rows. */
  lemma {:induction false} AggregateTotals(lines: seq<OrderLine>)
    ensures forall k :: 0 <= k < |Aggregate(lines)| ==>
      Aggregate(lines)[k].totalQuantity == SumFor(lines, Aggregate(lines)[k].id)
  {
    if lines != [] {
      var init := lines[..|lines| - 1];
      var line := lines[|lines| - 1];
      AggregateTotals(init);
      AggregateDistinct(init);
      var g := Aggregate(init);
      var k := GroupIndex(g, line.productId);
      if k < 0 {
        AggregateCovers(init, line.productId);
        NoLineSumsToZero(init, line.productId);
      }
    }
  }

  lemma {:induction false} NoLineSumsToZero(lines: seq<OrderLine>, id: Id)
    requires !HasLine(lines, id)
    ensures SumFor(lines, id) == 0
  {
    if lines != [] {
      var init := lines[..|lines| - 1];
      assert forall i :: 0 <= i < |init| ==> init[i] == lines[i];
      assert lines[|lines| - 1].productId != id;
      NoLineSumsToZero(init, id);
    }
  }

  /** The first row for `id` sits at `i`. */
  predicate FirstLineAt(lines: seq<OrderLine>, id: Id, i: int) {
    0 <= i < |lines| && lines[i].productId == id && forall j :: 0 <= j < i ==> lines[j].productId != id
  }

  /** Each entry keeps the name of the first row for its product. */
  lemma {:induction false} AggregateNames(lines: seq<OrderLine>)
    ensures forall k :: 0 <= k < |Aggregate(lines)| ==>
      exists i :: FirstLineAt(lines, Aggregate(lines)[k].id, i) && Aggregate(lines)[k].name == NameOr(lines[i])
  {
    if lines != [] {
      var init := lines[..|lines| - 1];
      var line := lines[|lines| - 1];
      AggregateNames(init);
      var g := Aggregate(init);
      var a := Aggregate(lines);
      assert a == AddLine(g, line);
      AddLineShape(g, line);
      forall m | 0 <= m < |a| ensures exists i :: FirstLineAt(lines, a[m].id, i) && a[m].name == NameOr(lines[i]) {
        if m < |g| {
          var i :| FirstLineAt(init, g[m].id, i) && g[m].name == NameOr(init[i]);
          assert init[i] == lines[i];
          assert forall j :: 0 <= j < i ==> init[j] == lines[j];
          assert FirstLineAt(lines, a[m].id, i);
        } else {
          AggregateCovers(init, line.productId);
          forall j | 0 <= j < |init| ensures lines[j].productId != line.productId {
            assert init[j] == lines[j];
          }
          assert FirstLineAt(lines, a[m].id, |init|);
        }
      }
    } else {
      assert Aggregate(lines) == [];
    }
  }

  /** The entries' totals add up to the sum of all fetched quantities. */
  lemma {:induction false} AggregateSum(lines: seq<OrderLine>)
    ensures SumTotals(Aggregate(lines)) == SumQuantities(lines)
  {
    if lines != [] {
      var init := lines[..|lines| - 1];
      var line := lines[|lines| - 1];
      AggregateSum(init);
      var g := Aggregate(init);
      AddLineSum(g, line);
      assert Aggregate(lines) == AddLine(g, line);
      assert SumQuantities(lines) == SumQuantities(init) + line.quantity;
    }
  }

  /** One `forEach` step adds the row's quantity to the sum of the totals. */
  lemma AddLineSum(g: seq<ProductTotal>, line: OrderLine)
    ensures SumTotals(AddLine(g, line)) == SumTotals(g) + line.quantity
  {
    var k := GroupIndex(g, line.productId);
    if k >= 0 {
      SumTotalsReplace(g, k, g[k].(totalQuantity := g[k].totalQuantity + line.quantity));
    } else {
      SumTotalsAppend(g, ProductTotal(line.productId, NameOr(line), line.quantity));
    }
  }

  lemma SumTotalsAppend(g: seq<ProductTotal>, x: ProductTotal)
    ensures SumTotals(g + [x]) == SumTotals(g) + x.totalQuantity
  {
    assert (g + [x])[..|g|] == g;
  }

  /** One `forEach` step keeps every entry's id and name in place, and appends at most one entry. */
  lemma AddLineShape(g: seq<ProductTotal>, line: OrderLine)
    ensures var a := AddLine(g, line);
      |g| <= |a| <= |g| + 1
      && (forall m :: 0 <= m < |g| ==> a[m].id == g[m].id && a[m].name == g[m].name)
      && (|a| == |g| + 1 ==> GroupIndex(g, line.productId) < 0 && a[|g|] == ProductTotal(line.productId, NameOr(line), line.quantity))
  {
  }

  lemma {:induction false} SumTotalsReplace(g: seq<ProductTotal>, k: nat, x: ProductTotal)
    requires k < |g|
    ensures SumTotals(g[k := x]) == SumTotals(g) - g[k].totalQuantity + x.totalQuantity
  {
    var n := |g| - 1;
    assert g[k := x][..n] == if k < n then g[..n][k := x] else g[..n];
    if k < n {
      SumTotalsReplace(g[..n], k, x);
    }
  }

  /** A sequence with distinct ids has no repeated element, so each occurs once in its multiset. */
  lemma {:induction false} DistinctOnce(s: seq<ProductTotal>, x: ProductTotal)
    requires DistinctProductIds(s)
    ensures multiset(s)[x] <= 1
  {
    if s != [] {
      assert s == [s[0]] + s[1..];
      DistinctOnce(s[1..], x);
      if s[0] == x {
        assert forall j :: 1 <= j < |s| ==> s[j].id != x.id;
        assert x !in s[1..];
      }
    }
  }

  /** Reordering a sequence with distinct ids keeps them distinct. */
  lemma PermutationKeepsDistinct(s: seq<ProductTotal>, r: seq<ProductTotal>)
    requires DistinctProductIds(s) && multiset(r) == multiset(s)
    ensures DistinctProductIds(r)
  {
    forall a, b | 0 <= a < b < |r| ensures r[a].id != r[b].id {
      if r[a] == r[b] {
        assert r == r[..b] + [r[b]] + r[b + 1..];
        assert r[a] in r[..b];
        assert multiset(r)[r[b]] >= 2;
        DistinctOnce(s, r[b]);
      } else {
        assert r[a] in multiset(s) && r[b] in multiset(s);
        var i :| 0 <= i < |s| && s[i] == r[a];
        var j :| 0 <= j < |s| && s[j] == r[b];
      }
    }
  }

  /**
   * `getTopProducts`: at most `limit` entries, by non-increasing total, one
   * per product, each holding the sum of its product's fetched quantities;
   * when no more than `limit` rows were fetched (which the query ensures)
   * every product that has a row is listed.
   */
  lemma TopProductsProperties(lines: seq<OrderLine>, limit: nat)
    ensures var top := Take(SortDescBy(Aggregate(lines), TotalOf), limit);
      |top| <= limit
      && SortedDescBy(top, TotalOf)
      && DistinctProductIds(top)
      && (forall k :: 0 <= k < |top| ==> top[k].totalQuantity == SumFor(lines, top[k].id) && HasLine(lines, top[k].id))
      && (|lines| <= limit ==> forall g :: g in top <==> g in Aggregate(lines))
  {
    var agg := Aggregate(lines);
    var sorted := SortDescBy(agg, TotalOf);
    var top := Take(sorted, limit);
    AggregateDistinct(lines);
    AggregateTotals(lines);
    PermutationKeepsDistinct(agg, sorted);
    SameMembers(agg, sorted);
    forall k | 0 <= k < |top| ensures top[k].totalQuantity == SumFor(lines, top[k].id) && HasLine(lines, top[k].id) {
      assert top[k] == sorted[k];
      assert top[k] in agg;
      var m :| 0 <= m < |agg| && agg[m] == top[k];
      AggregateCovers(lines, top[k].id);
    }
  }

  // ---------------------------------------------------------------------------
  // Low-stock alerts
  // ---------------------------------------------------------------------------

  const MaxLowStockAlerts: nat := 5

  /** `getLowStockAlerts(threshold)`: the low-stock query cut to five; `readFails` is whether it errs. */
  function GetLowStockAlerts(c: Catalogue, threshold: int, readFails: bool): (r: Result<seq<Product>>)
    reads c
    ensures r.Err? <==> readFails
    ensures r.Err? ==> r.error == DatabaseErrorMessage
    ensures r.Ok? ==> var low := c.GetLowStockProducts(threshold, false).value;
      |r.value| <= MaxLowStockAlerts && |r.value| <= |low|
      && (forall i :: 0 <= i < |r.value| ==> r.value[i] == low[i])
      && (|low| <= MaxLowStockAlerts ==> r.value == low)
  {
    if readFails then Err(DatabaseErrorMessage)
    else Ok(Take(c.GetLowStockProducts(threshold, false).value, MaxLowStockAlerts))
  }

  /** The alerts are active products below the threshold, by ascending stock. */
  lemma LowStockAlertsProperties(c: Catalogue, threshold: int)
    ensures var alerts := GetLowStockAlerts(c, threshold, false).value;
      SortedBy(alerts, StockOf)
      && forall p :: p in alerts ==> p in c.Rows() && p.isActive && p.stock < threshold
  {
    var low := c.GetLowStockProducts(threshold, false).value;
    var alerts := GetLowStockAlerts(c, threshold, false).value;
    forall p | p in alerts ensures p in low {
      var i :| 0 <= i < |alerts| && alerts[i] == p;
    }
  }
}
