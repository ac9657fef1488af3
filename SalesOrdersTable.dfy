/** The sales-order table (`src/composables/useSalesOrdersTable.ts`): the
    weeks ordered by their "week/year" label, the active week, its distinct
    plants and item columns, the plant and text filters, the column sort, the
    pagination arithmetic and the footer totals, all as functions of the
    table's state; and the state itself, whose operations reassign its refs.
    Quantities are integers. */
module SalesOrdersTable {
  import opened Common
  import opened Strings
  import Sorting

  /** One entry of `dynamicSoItems`. */
  datatype SoItem = SoItem(quantity: Option<int>, plannedOrder: Option<string>, productionOrder: Option<string>)

  /** `SalesOrderMain`; `dynamicSoItems` is an object, kept as its entries in
      key order, and may be absent. */
  datatype Order = Order(
    material: string,
    plant: string,
    requestedQuantityUnit: string,
    requestedQuantity: int,
    toProduce: Option<int>,
    totalAvailableQuantity: Option<int>,
    cumulativeQuantity: Option<int>,
    availableNotCharged: int,
    availableCharged: int,
    finalBattery: Option<int>,
    dynamicSoItems: Option<seq<(string, SoItem)>>)

  /** `SalesOrderByDate`: the orders of one delivery week. */
  datatype WeekData = WeekData(reqDlvWeek: string, salesOrderMainList: seq<Order>)

  // ---------------------------------------------------------------------------
  // the weeks, in (year, week) order

  datatype WeekKey = WeekKey(week: int, year: int)

  /** `parseWeek`: "week/year", each part `parseInt(part) || 0`; a missing
      year is 0. */
  function ParseWeek(weekStr: string): WeekKey {
    var parts := Split(weekStr, '/');
    WeekKey(ParseIntOrZero(parts[0]), if |parts| > 1 then ParseIntOrZero(parts[1]) else 0)
  }

  lemma NoSlashInNumber(n: int)
    ensures '/' !in IntToString(n)
  {
    var d := NatToString(if n < 0 then -n else n);
    assert forall k :: 0 <= k < |d| ==> d[k] != '/';
    assert IntToString(n) == if n < 0 then "-" + d else d;
  }

  /** The label "w/y" written from two integers is read back as (w, y). */
  lemma ParseWeekOfLabel(week: int, year: int)
    ensures ParseWeek(IntToString(week) + "/" + IntToString(year)) == WeekKey(week, year)
  {
    NoSlashInNumber(week);
    NoSlashInNumber(year);
    SplitPieceSep(IntToString(week), '/', IntToString(year));
    SplitNoSep(IntToString(year), '/');
    ParseIntToString(week);
    ParseIntToString(year);
  }

  /** A label without a year counts as year 0. */
  lemma ParseWeekWithoutYear(week: int)
    ensures ParseWeek(IntToString(week)) == WeekKey(week, 0)
  {
    NoSlashInNumber(week);
    SplitNoSep(IntToString(week), '/');
    ParseIntToString(week);
  }

  /** The comparator of `sortedSalesOrdersByDate`. */
  function CompareWeeks(a: WeekData, b: WeekData): int {
    var ka := ParseWeek(a.reqDlvWeek);
    var kb := ParseWeek(b.reqDlvWeek);
    if ka.year != kb.year then ka.year - kb.year else ka.week - kb.week
  }

  predicate WeekLe(a: WeekData, b: WeekData) {
    CompareWeeks(a, b) <= 0
  }

  /** The comparator orders weeks by year and then by week number. */
  lemma WeekLeByKey(a: WeekData, b: WeekData)
    ensures WeekLe(a, b) <==> var ka, kb := ParseWeek(a.reqDlvWeek), ParseWeek(b.reqDlvWeek);
                              ka.year < kb.year || (ka.year == kb.year && ka.week <= kb.week)
  {
  }

  lemma WeekLeTotalPreorder()
    ensures Sorting.TotalPreorder(WeekLe)
  {
    forall a, b, c | WeekLe(a, b) && WeekLe(b, c) ensures WeekLe(a, c) {
      WeekLeByKey(a, b);
      WeekLeByKey(b, c);
      WeekLeByKey(a, c);
    }
  }

  /** `sortedSalesOrdersByDate`: a sorted copy; the input is left alone. */
  function SortedSalesOrdersByDate(weeks: seq<WeekData>): (r: seq<WeekData>)
    ensures |r| == |weeks| && multiset(r) == multiset(weeks)
    ensures Sorting.SortedBy(r, WeekLe)
  {
    if |weeks| == 0 then []
    else
      WeekLeTotalPreorder();
      Sorting.SortBySorted(weeks, WeekLe);
      Sorting.SortBy(weeks, WeekLe)
  }

  /** Every earlier week of the sorted list has an earlier or equal
      (year, week); weeks with equal keys keep their input order. */
  lemma SortedWeeksOrdered(weeks: seq<WeekData>, i: int, j: int, c: WeekData)
    requires 0 <= i < j < |weeks|
    ensures var r := SortedSalesOrdersByDate(weeks);
            var ki, kj := ParseWeek(r[i].reqDlvWeek), ParseWeek(r[j].reqDlvWeek);
            ki.year < kj.year || (ki.year == kj.year && ki.week <= kj.week)
    ensures var p := (y: WeekData) => Sorting.Equivalent(WeekLe, c, y);
            Sorting.Filter(SortedSalesOrdersByDate(weeks), p) == Sorting.Filter(weeks, p)
  {
    var r := SortedSalesOrdersByDate(weeks);
    WeekLeByKey(r[i], r[j]);
    WeekLeTotalPreorder();
    Sorting.SortByStable(weeks, WeekLe, c);
  }

  // ---------------------------------------------------------------------------
  // the active week

  /** `find(weekData => weekData.reqDlvWeek === name)` as an index. */
  function FindWeek(weeks: seq<WeekData>, name: string): (i: Option<nat>)
    ensures i.Some? ==> (i.value < |weeks| && weeks[i.value].reqDlvWeek == name
      && forall j :: 0 <= j < i.value ==> weeks[j].reqDlvWeek != name)
    ensures i.None? ==> forall j :: 0 <= j < |weeks| ==> weeks[j].reqDlvWeek != name
  {
    if |weeks| == 0 then None
    else if weeks[0].reqDlvWeek == name then Some(0)
    else
      match FindWeek(weeks[1..], name)
      case None => None
      case Some(i) => Some(i + 1)
  }

  /** `activeWeekData`: without a selected tab the first week; with one, the
      first week of that name, or none. */
  function ActiveWeekData(sorted: seq<WeekData>, activeWeekTab: string): (r: Option<WeekData>)
    ensures r.Some? ==> r.value in sorted
    ensures activeWeekTab == "" ==> (r.Some? <==> |sorted| > 0) && (r.Some? ==> r.value == sorted[0])
    ensures activeWeekTab != "" && r.Some? ==> r.value.reqDlvWeek == activeWeekTab
    ensures activeWeekTab != "" && r.Some? ==>
      exists i :: 0 <= i < |sorted| && sorted[i] == r.value && r.value.reqDlvWeek == activeWeekTab && forall j :: 0 <= j < i ==> sorted[j].reqDlvWeek != activeWeekTab
    ensures activeWeekTab != "" && r.None? ==> forall j :: 0 <= j < |sorted| ==> sorted[j].reqDlvWeek != activeWeekTab
  {
    if |sorted| == 0 || activeWeekTab == "" then
      (if |sorted| > 0 then Some(sorted[0]) else None)
    else
      match FindWeek(sorted, activeWeekTab)
      case None => None
      case Some(i) => Some(sorted[i])
  }

  // ---------------------------------------------------------------------------
  // distinct sorted lists: `Array.from(new Set(...)).sort()`

  /** Ordered by `<` without repetition. */
  predicate StrictlySorted(xs: seq<string>) {
    forall i, j :: 0 <= i < j < |xs| ==> LexLess(xs[i], xs[j])
  }

  /** Adds `x` to a sorted list unless it is already in it. */
  function InsertDistinct(x: string, s: seq<string>): (r: seq<string>)
    ensures forall y :: y in r <==> y == x || y in s
  {
    if |s| == 0 then [x]
    else if x == s[0] then s
    else if LexLess(x, s[0]) then [x] + s
    else [s[0]] + InsertDistinct(x, s[1..])
  }

  lemma {:induction false} InsertDistinctSorted(x: string, s: seq<string>)
    requires StrictlySorted(s)
    ensures StrictlySorted(InsertDistinct(x, s))
    decreases |s|
  {
    if |s| > 0 && x != s[0] {
      if LexLess(x, s[0]) {
        forall j | 0 <= j < |s| ensures LexLess(x, s[j]) {
          if j > 0 { LexLessTransitive(x, s[0], s[j]); }
        }
      } else {
        LexLessTotal(x, s[0]);
        InsertDistinctSorted(x, s[1..]);
        var t := InsertDistinct(x, s[1..]);
        forall y | y in t ensures LexLess(s[0], y) {
          if y != x {
            var k :| 0 <= k < |s[1..]| && s[1..][k] == y;
            assert s[k + 1] == y;
          }
        }
      }
    }
  }

  /** The distinct elements of `xs` in `<` order. */
  function SortedDistinct(xs: seq<string>): (r: seq<string>)
    ensures forall y :: y in r <==> y in xs
    ensures StrictlySorted(r)
  {
    if |xs| == 0 then []
    else
      var rest := SortedDistinct(xs[1..]);
      InsertDistinctSorted(xs[0], rest);
      assert forall y :: y in xs <==> y == xs[0] || y in xs[1..];
      InsertDistinct(xs[0], rest)
  }

  /** The head of a sorted list comes before every other element. */
  lemma SortedHeadLeast(a: seq<string>)
    requires StrictlySorted(a) && |a| > 0
    ensures forall y :: y in a ==> y == a[0] || LexLess(a[0], y)
  {
  }

  lemma NonEmptyHasHead(b: seq<string>)
    ensures |b| > 0 ==> b[0] in b
  {
  }

  lemma NotBothLess(x: string, y: string)
    ensures !(LexLess(x, y) && LexLess(y, x))
  {
    if LexLess(x, y) { LexLessAsymmetric(x, y); }
  }

  /** A sorted list without repetition is determined by its elements, so the
      result does not depend on the order in which the set was filled. */
  lemma {:induction false} StrictlySortedUnique(a: seq<string>, b: seq<string>)
    requires StrictlySorted(a) && StrictlySorted(b)
    requires forall y :: y in a <==> y in b
    ensures a == b
    decreases |a|
  {
    if |a| > 0 {
      assert a[0] in b;
      SortedHeadLeast(a);
      SortedHeadLeast(b);
      NotBothLess(a[0], b[0]);
      assert a[0] == b[0];
      assert a == [a[0]] + a[1..] && b == [b[0]] + b[1..];
      forall y ensures y in a[1..] <==> y in b[1..] {
        LexLessIrreflexive(y);
        if y in a[1..] {
          var k :| 0 <= k < |a[1..]| && a[1..][k] == y;
          assert LexLess(a[0], a[k + 1]);
          assert y in b && y != b[0];
        }
        if y in b[1..] {
          var k :| 0 <= k < |b[1..]| && b[1..][k] == y;
          assert LexLess(b[0], b[k + 1]);
          assert y in a && y != a[0];
        }
      }
      StrictlySortedUnique(a[1..], b[1..]);
    } else {
      NonEmptyHasHead(b);
    }
  }

  // ---------------------------------------------------------------------------
  // `dynamicColumnKeys` and `availablePlants`

  /** `Object.keys(order.dynamicSoItems)`, none when the object is absent. */
  function ItemKeys(o: Order): seq<string> {
    if o.dynamicSoItems.None? then []
    else
      var items := o.dynamicSoItems.value;
      seq(|items|, k requires 0 <= k < |items| => items[k].0)
  }

  /** The keys of every order, in order, with repetitions. */
  function AllItemKeys(orders: seq<Order>): (r: seq<string>)
    ensures forall key :: key in r <==> exists i :: 0 <= i < |orders| && key in ItemKeys(orders[i])
  {
    if |orders| == 0 then []
    else
      var rest := AllItemKeys(orders[1..]);
      assert forall i :: 1 <= i < |orders| ==> orders[i] == orders[1..][i - 1];
      ItemKeys(orders[0]) + rest
  }

  /** `dynamicColumnKeys`: every key of the active week's items, once each,
      in `<` order; none without an active week. */
  function DynamicColumnKeys(active: Option<WeekData>): (r: seq<string>)
    ensures StrictlySorted(r)
    ensures active.None? ==> r == []
    ensures active.Some? ==> forall key :: key in r <==>
      exists i :: 0 <= i < |active.value.salesOrderMainList| && key in ItemKeys(active.value.salesOrderMainList[i])
  {
    if active.None? then [] else SortedDistinct(AllItemKeys(active.value.salesOrderMainList))
  }

  /** `order.plant && order.plant.trim() !== ''` */
  predicate HasPlant(o: Order) {
    o.plant != "" && Trim(o.plant) != ""
  }

  /** The trimmed plants of the orders that have one, in order. */
  function TrimmedPlants(orders: seq<Order>): (r: seq<string>)
    ensures forall p :: p in r <==> exists i :: 0 <= i < |orders| && HasPlant(orders[i]) && p == Trim(orders[i].plant)
  {
    if |orders| == 0 then []
    else
      var rest := TrimmedPlants(orders[1..]);
      assert forall i :: 1 <= i < |orders| ==> orders[i] == orders[1..][i - 1];
      (if HasPlant(orders[0]) then [Trim(orders[0].plant)] else []) + rest
  }

  /** `availablePlants`: the trimmed, non-blank plants of the active week,
      once each, in `<` order; none without an active week. */
  function AvailablePlants(active: Option<WeekData>): (r: seq<string>)
    ensures StrictlySorted(r)
    ensures active.None? ==> r == []
    ensures active.Some? ==> forall p :: p in r <==>
      exists i :: 0 <= i < |active.value.salesOrderMainList|
        && HasPlant(active.value.salesOrderMainList[i]) && p == Trim(active.value.salesOrderMainList[i].plant)
  {
    if active.None? then [] else SortedDistinct(TrimmedPlants(active.value.salesOrderMainList))
  }

  /** The plants offered are non-empty and already trimmed. */
  lemma AvailablePlantsTrimmed(active: Option<WeekData>, p: string)
    requires p in AvailablePlants(active)
    ensures p != "" && Trim(p) == p
  {
    var orders := active.value.salesOrderMainList;
    var i :| 0 <= i < |orders| && HasPlant(orders[i]) && p == Trim(orders[i].plant);
    TrimIdempotent(orders[i].plant);
  }

  // ---------------------------------------------------------------------------
  // the plant and text filters

  /** `item.plannedOrder?.toLowerCase().includes(search) ||
      item.productionOrder?.toLowerCase().includes(search)` */
  predicate ItemMatches(item: SoItem, search: string) {
    (item.plannedOrder.Some? && Includes(ToLower(item.plannedOrder.value), search))
    || (item.productionOrder.Some? && Includes(ToLower(item.productionOrder.value), search))
  }

  /** The text filter: the material, the plant or the unit contains the
      text, or so does the planned or production order of some item. */
  predicate SearchMatches(search: string, o: Order) {
    Includes(ToLower(o.material), search)
    || Includes(ToLower(o.plant), search)
    || Includes(ToLower(o.requestedQuantityUnit), search)
    || (o.dynamicSoItems.Some? && exists k :: 0 <= k < |o.dynamicSoItems.value| && ItemMatches(o.dynamicSoItems.value[k].1, search))
  }

  function PlantFilter(selectedPlant: string): Order -> bool {
    (o: Order) => o.plant == selectedPlant
  }

  function SearchFilter(globalFilterValue: string): Order -> bool {
    (o: Order) => SearchMatches(ToLower(globalFilterValue), o)
  }

  /** The orders the plant filter leaves. */
  function ByPlant(orders: seq<Order>, selectedPlant: string): seq<Order> {
    if selectedPlant != "All" then Sorting.Filter(orders, PlantFilter(selectedPlant)) else orders
  }

  /** The plant filter, applied unless "All" is selected, then the text
      filter, applied unless the text is blank; the text is lowered but not
      trimmed. */
  function FilteredOrders(orders: seq<Order>, selectedPlant: string, globalFilterValue: string): seq<Order> {
    var byPlant := ByPlant(orders, selectedPlant);
    if Trim(globalFilterValue) != "" then Sorting.Filter(byPlant, SearchFilter(globalFilterValue)) else byPlant
  }

  /** Whether the filters keep an order. */
  predicate Kept(o: Order, selectedPlant: string, globalFilterValue: string) {
    (selectedPlant == "All" || o.plant == selectedPlant)
    && (Trim(globalFilterValue) == "" || SearchMatches(ToLower(globalFilterValue), o))
  }

  /** The filters keep the orders they accept and drop every other. */
  lemma FilteredOrdersMembers(orders: seq<Order>, selectedPlant: string, globalFilterValue: string)
    ensures forall o :: o in FilteredOrders(orders, selectedPlant, globalFilterValue) <==>
      o in orders && Kept(o, selectedPlant, globalFilterValue)
  {
    var byPlant := ByPlant(orders, selectedPlant);
    if selectedPlant != "All" {
      Sorting.FilterMembers(orders, PlantFilter(selectedPlant));
    }
    assert forall o :: o in byPlant <==> o in orders && (selectedPlant == "All" || o.plant == selectedPlant);
    if Trim(globalFilterValue) != "" {
      Sorting.FilterMembers(byPlant, SearchFilter(globalFilterValue));
    }
  }

  /** The filters keep the orders in their order. */
  lemma FilteredOrdersSubsequence(orders: seq<Order>, selectedPlant: string, globalFilterValue: string)
    ensures Sorting.Subsequence(FilteredOrders(orders, selectedPlant, globalFilterValue), orders)
  {
    var p := PlantFilter(selectedPlant);
    var q := SearchFilter(globalFilterValue);
    if Trim(globalFilterValue) == "" {
      if selectedPlant != "All" {
        Sorting.FilterSubsequence(orders, p);
      } else {
        Sorting.SubsequenceReflexive(orders);
      }
    } else if selectedPlant != "All" {
      Sorting.FilterFilter(orders, p, q);
      Sorting.FilterSubsequence(orders, Sorting.Both(p, q));
    } else {
      Sorting.FilterSubsequence(orders, q);
    }
  }

  // ---------------------------------------------------------------------------
  // the column sort

  datatype Direction = Asc | Desc

  /** What a column compares: a number, or a text compared in lower case. */
  datatype SortValue = Number(n: int) | Text(s: string)

  /** `items[key]`: the last entry of that name, as in a parsed object. */
  function LookupItem(items: seq<(string, SoItem)>, key: string): (r: Option<SoItem>)
    ensures r.Some? ==> exists k :: 0 <= k < |items| && items[k] == (key, r.value)
    ensures r.None? <==> forall k :: 0 <= k < |items| ==> items[k].0 != key
  {
    if |items| == 0 then None
    else if items[|items| - 1].0 == key then Some(items[|items| - 1].1)
    else LookupItem(items[..|items| - 1], key)
  }

  /** `order.dynamicSoItems?.[key]` */
  function DynamicItem(o: Order, key: string): Option<SoItem> {
    if o.dynamicSoItems.None? then None else LookupItem(o.dynamicSoItems.value, key)
  }

  /** `x || ''` for an optional text. */
  function TextOrEmpty(s: Option<string>): string {
    if s.Some? then s.value else ""
  }

  /** The columns whose values are compared as numbers. */
  predicate IsNumericColumn(column: string) {
    if StartsWith(column, "dynamic-") then
      var parts := Split(column, '-');
      |parts| >= 3 && parts[2] == "quantity"
    else
      column in {"requestedQuantity", "toProduce", "totalAvailableQuantity", "cumulativeQuantity",
                 "availableNotCharged", "availableCharged", "finalBattery"}
  }

  /** The value the sort compares for an order: "dynamic-<key>-<field>"
      reads the item's quantity, planned order or production order, the
      named columns read the order's own fields (`Number(x) || 0` for the
      quantities, `x || ''` for the texts), and any other column compares
      '' with ''. */
  function SortValueOf(column: string, o: Order): (v: SortValue)
    ensures v.Number? <==> IsNumericColumn(column)
  {
    if StartsWith(column, "dynamic-") then
      var parts := Split(column, '-');
      if |parts| >= 3 then
        var item := DynamicItem(o, parts[1]);
        if parts[2] == "quantity" then Number(if item.Some? then item.value.quantity.GetOr(0) else 0)
        else if parts[2] == "plannedOrder" then Text(if item.Some? then TextOrEmpty(item.value.plannedOrder) else "")
        else if parts[2] == "productionOrder" then Text(if item.Some? then TextOrEmpty(item.value.productionOrder) else "")
        else Text("")
      else Text("")
    else if column == "material" then Text(o.material)
    else if column == "plant" then Text(o.plant)
    else if column == "requestedQuantity" then Number(o.requestedQuantity)
    else if column == "toProduce" then Number(o.toProduce.GetOr(0))
    else if column == "totalAvailableQuantity" then Number(o.totalAvailableQuantity.GetOr(0))
    else if column == "cumulativeQuantity" then Number(o.cumulativeQuantity.GetOr(0))
    else if column == "availableNotCharged" then Number(o.availableNotCharged)
    else if column == "availableCharged" then Number(o.availableCharged)
    else if column == "finalBattery" then Number(o.finalBattery.GetOr(0))
    else Text("")
  }

  /** `String(value)` */
  function ValueText(v: SortValue): string {
    match v
    case Number(n) => IntToString(n)
    case Text(s) => s
  }

  /** The sort's comparator: numbers by difference, texts lowered and
      compared with `<` and `>`, reversed for a descending sort. */
  function CompareValues(a: SortValue, b: SortValue, dir: Direction): int {
    if a.Number? && b.Number? then
      (if dir == Asc then a.n - b.n else b.n - a.n)
    else
      var sa := ToLower(ValueText(a));
      var sb := ToLower(ValueText(b));
      if dir == Asc then (if LexLess(sa, sb) then -1 else if LexLess(sb, sa) then 1 else 0)
      else (if LexLess(sb, sa) then -1 else if LexLess(sa, sb) then 1 else 0)
  }

  /** "`a` may come before `b`" for the sort by `column`. */
  function ColumnOrder(column: string, dir: Direction): (Order, Order) -> bool {
    (a: Order, b: Order) => CompareValues(SortValueOf(column, a), SortValueOf(column, b), dir) <= 0
  }

  lemma NotLessTransitive(x: string, y: string, z: string)
    requires !LexLess(y, x) && !LexLess(z, y)
    ensures !LexLess(z, x)
  {
    LexLessTotal(x, y);
    LexLessTotal(y, z);
    if LexLess(x, y) && LexLess(y, z) {
      LexLessTransitive(x, y, z);
      LexLessAsymmetric(x, z);
    } else if LexLess(x, y) {
      LexLessAsymmetric(x, y);
    } else if LexLess(y, z) {
      LexLessAsymmetric(y, z);
    } else {
      LexLessIrreflexive(x);
    }
  }

  /** On values of one kind the comparator is a consistent ordering:
      ascending it is "not greater", descending "not smaller". */
  lemma CompareValuesOrder(a: SortValue, b: SortValue, dir: Direction)
    requires a.Number? == b.Number?
    ensures a.Number? ==> (CompareValues(a, b, dir) <= 0 <==> if dir == Asc then a.n <= b.n else b.n <= a.n)
    ensures a.Text? ==> (CompareValues(a, b, dir) <= 0 <==>
      if dir == Asc then !LexLess(ToLower(b.s), ToLower(a.s)) else !LexLess(ToLower(a.s), ToLower(b.s)))
  {
    NotBothLess(ToLower(ValueText(a)), ToLower(ValueText(b)));
  }

  /** Every column's comparator is a consistent ordering, so the sort is
      well defined. */
  lemma ColumnOrderTotalPreorder(column: string, dir: Direction)
    ensures Sorting.TotalPreorder(ColumnOrder(column, dir))
  {
    var le := ColumnOrder(column, dir);
    forall a, b ensures le(a, b) || le(b, a) {
      var va, vb := SortValueOf(column, a), SortValueOf(column, b);
      CompareValuesOrder(va, vb, dir);
      CompareValuesOrder(vb, va, dir);
      if va.Text? {
        NotBothLess(ToLower(va.s), ToLower(vb.s));
      }
    }
    forall a, b, c | le(a, b) && le(b, c) ensures le(a, c) {
      var va, vb, vc := SortValueOf(column, a), SortValueOf(column, b), SortValueOf(column, c);
      CompareValuesOrder(va, vb, dir);
      CompareValuesOrder(vb, vc, dir);
      CompareValuesOrder(va, vc, dir);
      if va.Text? {
        if dir == Asc {
          NotLessTransitive(ToLower(va.s), ToLower(vb.s), ToLower(vc.s));
        } else {
          NotLessTransitive(ToLower(vc.s), ToLower(vb.s), ToLower(va.s));
        }
      }
    }
  }

  /** `sortedAndFilteredData`: the filtered orders of the active week,
      sorted by the column when one is chosen; none without an active week. */
  function SortedAndFilteredData(active: Option<WeekData>, selectedPlant: string, globalFilterValue: string,
                                 sortColumn: string, dir: Direction): (r: seq<Order>)
    ensures active.None? ==> r == []
    ensures active.Some? ==> multiset(r) == multiset(FilteredOrders(active.value.salesOrderMainList, selectedPlant, globalFilterValue))
    ensures active.Some? && sortColumn == "" ==> r == FilteredOrders(active.value.salesOrderMainList, selectedPlant, globalFilterValue)
    ensures sortColumn != "" ==> Sorting.SortedBy(r, ColumnOrder(sortColumn, dir))
  {
    if active.None? then []
    else
      var data := FilteredOrders(active.value.salesOrderMainList, selectedPlant, globalFilterValue);
      if sortColumn != "" then
        ColumnOrderTotalPreorder(sortColumn, dir);
        Sorting.SortBySorted(data, ColumnOrder(sortColumn, dir));
        Sorting.SortBy(data, ColumnOrder(sortColumn, dir))
      else data
  }

  /** The table shows exactly the orders of the active week that the filters
      keep, and the sort keeps orders with equal values in their order. */
  lemma SortedAndFilteredMembers(active: Option<WeekData>, selectedPlant: string, globalFilterValue: string,
                                 sortColumn: string, dir: Direction, c: Order)
    ensures forall o :: o in SortedAndFilteredData(active, selectedPlant, globalFilterValue, sortColumn, dir) <==>
      active.Some? && o in active.value.salesOrderMainList && Kept(o, selectedPlant, globalFilterValue)
    ensures active.Some? ==>
      var p := (y: Order) => Sorting.Equivalent(ColumnOrder(sortColumn, dir), c, y);
      Sorting.Filter(SortedAndFilteredData(active, selectedPlant, globalFilterValue, sortColumn, dir), p)
      == Sorting.Filter(FilteredOrders(active.value.salesOrderMainList, selectedPlant, globalFilterValue), p)
  {
    if active.Some? {
      var data := FilteredOrders(active.value.salesOrderMainList, selectedPlant, globalFilterValue);
      FilteredOrdersMembers(active.value.salesOrderMainList, selectedPlant, globalFilterValue);
      var r := SortedAndFilteredData(active, selectedPlant, globalFilterValue, sortColumn, dir);
      assert forall o :: o in r <==> o in multiset(r);
      assert forall o :: o in data <==> o in multiset(data);
      if sortColumn != "" {
        ColumnOrderTotalPreorder(sortColumn, dir);
        Sorting.SortByStable(data, ColumnOrder(sortColumn, dir), c);
      }
    }
  }

  // ---------------------------------------------------------------------------
  // pagination

  /** A number of rows per page. */
  type Positive = n: int | n > 0 witness 1

  /** `Math.ceil(total / rows)` */
  function CeilDiv(total: nat, rows: Positive): (r: nat)
    ensures total <= r * rows
    ensures total > 0 ==> (r - 1) * rows < total
    ensures total == 0 ==> r == 0
  {
    var q := (total + rows - 1) / rows;
    assert q * rows + (total + rows - 1) % rows == total + rows - 1;
    assert (q - 1) * rows == q * rows - rows;
    q
  }

  /** `totalPages`: one page when there is nothing to show, otherwise as
      many pages as it takes to hold every record. */
  function TotalPages(total: nat, rows: Positive): (r: int)
    ensures r >= 1
    ensures total == 0 ==> r == 1
    ensures total > 0 ==> (r - 1) * rows < total <= r * rows
  {
    if total == 0 then 1 else CeilDiv(total, rows)
  }

  /** The `rows` watcher: a page past the last page of `total` records
      moves back to that last page; with no records the page stays. */
  function PageAfterRowsChange(page: int, total: nat, rows: Positive): (p: int)
    ensures page > CeilDiv(total, rows) > 0 ==> p == CeilDiv(total, rows)
    ensures !(page > CeilDiv(total, rows) > 0) ==> p == page
    ensures total > 0 ==> p <= TotalPages(total, rows)
    ensures total > 0 && page >= 1 ==> p >= 1
  {
    var maxPage := CeilDiv(total, rows);
    if page > maxPage && maxPage > 0 then maxPage else page
  }

  /** `startIndex` */
  function StartIndex(currentPage: int, rows: Positive): (r: int)
    ensures currentPage >= 1 ==> r >= 0
  {
    MulMonotone(0, currentPage - 1, rows);
    (currentPage - 1) * rows
  }

  /** `endIndex`: the end of the page, cut at the last record. */
  function EndIndex(currentPage: int, rows: Positive, total: nat): (r: int)
    ensures r <= total && r <= StartIndex(currentPage, rows) + rows
    ensures r == total || r == StartIndex(currentPage, rows) + rows
  {
    var end := StartIndex(currentPage, rows) + rows;
    if end < total then end else total
  }

  /** An index argument of `slice`: a negative one counts from the end, and
      both are cut to the length. */
  function SliceIndex(i: int, len: nat): (r: nat)
    ensures r <= len
    ensures 0 <= i ==> r == if i < len then i else len
  {
    if i < 0 then (if len + i < 0 then 0 else len + i)
    else if i < len then i else len
  }

  /** `s.slice(start, end)` */
  function Slice<T>(s: seq<T>, start: int, end: int): (r: seq<T>)
    ensures |r| <= |s|
  {
    var from := SliceIndex(start, |s|);
    var to := SliceIndex(end, |s|);
    if from < to then s[from..to] else []
  }

  /** A window of `rows` records from a non-negative start. */
  lemma SliceWindow<T>(data: seq<T>, start: int, rows: Positive)
    requires start >= 0
    ensures var end := if start + rows < |data| then start + rows else |data|;
            var r := Slice(data, start, start + rows);
            |r| == (if start < end then end - start else 0) && forall k :: 0 <= k < |r| ==> r[k] == data[start + k]
  {
  }

  /** `paginatedData`: never more than a page; from the first page on, the
      records from `startIndex` up to `endIndex`. */
  function PaginatedData<T>(data: seq<T>, currentPage: int, rows: Positive): (r: seq<T>)
    ensures |r| <= rows
    ensures currentPage >= 1 ==>
      var start, end := StartIndex(currentPage, rows), EndIndex(currentPage, rows, |data|);
      |r| == (if start < end then end - start else 0) && forall k :: 0 <= k < |r| ==> r[k] == data[start + k]
  {
    var start := StartIndex(currentPage, rows);
    SliceRows(data, start, rows);
    assert currentPage >= 1 ==> start >= 0;
    if start >= 0 then
      SliceWindow(data, start, rows);
      Slice(data, start, start + rows)
    else
      Slice(data, start, start + rows)
  }

  lemma SliceRows<T>(data: seq<T>, start: int, rows: Positive)
    ensures |Slice(data, start, start + rows)| <= rows
  {
  }

  lemma PageAt<T>(data: seq<T>, p: int, rows: Positive, k: int)
    requires p >= 1 && 0 <= k < rows && StartIndex(p, rows) + k < |data|
    ensures k < |PaginatedData(data, p, rows)|
    ensures PaginatedData(data, p, rows)[k] == data[StartIndex(p, rows) + k]
  {
  }

  /** Every record is on the page `index / rows + 1`, which is one of the
      pages the table counts, at its offset from the page start. */
  lemma PagesCoverRecords<T>(data: seq<T>, rows: Positive, i: int)
    requires 0 <= i < |data|
    ensures var p := i / rows + 1;
            1 <= p <= TotalPages(|data|, rows)
            && 0 <= i - StartIndex(p, rows) < |PaginatedData(data, p, rows)|
            && PaginatedData(data, p, rows)[i - StartIndex(p, rows)] == data[i]
  {
    var q := i / rows;
    var p := q + 1;
    var n := TotalPages(|data|, rows);
    var start := StartIndex(p, rows);
    assert start == q * rows;
    assert q * rows + i % rows == i;
    MulMonotone(n, q, rows);
    PageAt(data, p, rows, i - start);
  }

  lemma MulMonotone(a: int, b: int, rows: Positive)
    ensures a <= b ==> a * rows <= b * rows
  {
  }

  /** `paginationDisplay` */
  datatype PaginationDisplay = PaginationDisplay(start: int, end: int, total: nat, currentPage: int, totalPages: int)

  function Display<T>(data: seq<T>, currentPage: int, rows: Positive): (d: PaginationDisplay)
    ensures d.total == |data| && d.currentPage == currentPage && d.totalPages == TotalPages(|data|, rows)
    ensures currentPage >= 1 ==> (d.start == 0 <==> d.total == 0)
    ensures d.total > 0 ==> d.start == StartIndex(currentPage, rows) + 1
    ensures d.total > 0 && 1 <= currentPage <= d.totalPages ==>
      1 <= d.start <= d.end <= d.total && d.end - d.start + 1 == |PaginatedData(data, currentPage, rows)|
  {
    var start := StartIndex(currentPage, rows);
    var total := |data|;
    MulMonotone(currentPage - 1, TotalPages(total, rows) - 1, rows);
    PaginationDisplay(if total == 0 then 0 else start + 1, EndIndex(currentPage, rows, total), total,
                      currentPage, TotalPages(total, rows))
  }

  // ---------------------------------------------------------------------------
  // footer totals

  function TotalRequested(data: seq<Order>): int {
    Sorting.Sum(data, (o: Order) => o.requestedQuantity)
  }

  function TotalToProduce(data: seq<Order>): int {
    Sorting.Sum(data, (o: Order) => o.toProduce.GetOr(0))
  }

  function TotalAvailableQuantity(data: seq<Order>): int {
    Sorting.Sum(data, (o: Order) => o.totalAvailableQuantity.GetOr(0))
  }

  function TotalCumulativeQuantity(data: seq<Order>): int {
    Sorting.Sum(data, (o: Order) => o.cumulativeQuantity.GetOr(0))
  }

  function TotalAvailableNotCharged(data: seq<Order>): int {
    Sorting.Sum(data, (o: Order) => o.availableNotCharged)
  }

  function TotalAvailableCharged(data: seq<Order>): int {
    Sorting.Sum(data, (o: Order) => o.availableCharged)
  }

  function TotalFinalBattery(data: seq<Order>): int {
    Sorting.Sum(data, (o: Order) => o.finalBattery.GetOr(0))
  }

  /** `getDynamicTotal(key, 'quantity')`: a missing item or quantity adds 0. */
  function DynamicTotal(data: seq<Order>, key: string): int {
    Sorting.Sum(data, (o: Order) => var item := DynamicItem(o, key); if item.Some? then item.value.quantity.GetOr(0) else 0)
  }

  datatype ReferenceField = PlannedOrderField | ProductionOrderField

  /** The item of `key` names a planned or production order: the field is
      present, not '-' and not blank. */
  predicate HasReference(o: Order, key: string, field: ReferenceField) {
    var item := DynamicItem(o, key);
    item.Some? &&
    var v := if field == PlannedOrderField then item.value.plannedOrder else item.value.productionOrder;
    v.Some? && v.value != "" && v.value != "-" && Trim(v.value) != ""
  }

  /** `getDynamicCount(key, field)` */
  function DynamicCount(data: seq<Order>, key: string, field: ReferenceField): (n: nat)
    ensures n <= |data|
  {
    |Sorting.Filter(data, (o: Order) => HasReference(o, key, field))|
  }

  /** The plants of the orders, untrimmed. */
  function PlantSet(data: seq<Order>): (ps: set<string>)
    ensures forall p :: p in ps <==> exists i :: 0 <= i < |data| && data[i].plant == p
    ensures |ps| <= |data|
  {
    if |data| == 0 then {}
    else
      var rest := PlantSet(data[1..]);
      assert forall i :: 1 <= i < |data| ==> data[i] == data[1..][i - 1];
      {data[0].plant} + rest
  }

  /** `getUniquePlants()`: the number of distinct plant values. */
  function UniquePlants(data: seq<Order>): (n: nat)
    ensures n <= |data|
    ensures n == 0 <==> |data| == 0
  {
    assert |data| > 0 ==> data[0].plant in PlantSet(data);
    |PlantSet(data)|
  }

  /** The footer does not depend on the sort: every total and count over the
      sorted rows equals the one over the filtered rows. */
  lemma FooterIgnoresSort(data: seq<Order>, column: string, dir: Direction, f: Order -> int, key: string, field: ReferenceField)
    ensures Sorting.Sum(Sorting.SortBy(data, ColumnOrder(column, dir)), f) == Sorting.Sum(data, f)
    ensures DynamicCount(Sorting.SortBy(data, ColumnOrder(column, dir)), key, field) == DynamicCount(data, key, field)
    ensures UniquePlants(Sorting.SortBy(data, ColumnOrder(column, dir))) == UniquePlants(data)
  {
    var sorted := Sorting.SortBy(data, ColumnOrder(column, dir));
    Sorting.SumSortBy(data, ColumnOrder(column, dir), f);
    Sorting.FilterLengthSortBy(data, ColumnOrder(column, dir), (o: Order) => HasReference(o, key, field));
    assert forall o :: o in sorted <==> o in multiset(sorted);
    assert forall o :: o in data <==> o in multiset(data);
    assert PlantSet(sorted) == PlantSet(data) by {
      forall p ensures p in PlantSet(sorted) <==> p in PlantSet(data) {
        if p in PlantSet(sorted) {
          var i :| 0 <= i < |sorted| && sorted[i].plant == p;
          assert sorted[i] in data;
        }
        if p in PlantSet(data) {
          var i :| 0 <= i < |data| && data[i].plant == p;
          assert data[i] in sorted;
        }
      }
    }
  }

  // ---------------------------------------------------------------------------
  // the table's state

  /** `useSalesOrdersTable(salesOrdersByDate, currentPage, rows)`: the refs
      it owns and the two it is given (`currentPage`, `rows`), with the
      watchers run as part of the assignments that trigger them. */
  class Table {
    var salesOrdersByDate: seq<WeekData>
    var currentPage: int
    var rows: Positive
    var globalFilterValue: string
    var selectedPlant: string
    var activeWeekTab: string
    var activeWeekIndex: int
    var sortColumn: string
    var sortDirection: Direction

    constructor(salesOrdersByDate: seq<WeekData>, currentPage: int, rows: Positive)
      ensures this.salesOrdersByDate == salesOrdersByDate && this.currentPage == currentPage && this.rows == rows
      ensures globalFilterValue == "" && selectedPlant == "All" && activeWeekTab == "" && activeWeekIndex == 0
      ensures sortColumn == "" && sortDirection == Asc
    {
      this.salesOrdersByDate := salesOrdersByDate;
      this.currentPage := currentPage;
      this.rows := rows;
      globalFilterValue := "";
      selectedPlant := "All";
      activeWeekTab := "";
      activeWeekIndex := 0;
      sortColumn := "";
      sortDirection := Asc;
    }

    function ActiveWeek(): Option<WeekData>
      reads this
    {
      ActiveWeekData(SortedSalesOrdersByDate(salesOrdersByDate), activeWeekTab)
    }

    /** `sortedAndFilteredData` */
    function Data(): seq<Order>
      reads this
    {
      SortedAndFilteredData(ActiveWeek(), selectedPlant, globalFilterValue, sortColumn, sortDirection)
    }

    /** `totalPages` */
    function Pages(): int
      reads this
    {
      TotalPages(|Data()|, rows)
    }

    /** `sortBy(column)`: the same column flips the direction, another one
      is sorted ascending; either way back to page 1. */
    method SortBy(column: string)
      modifies this
      ensures sortColumn == column && currentPage == 1
      ensures old(sortColumn) == column ==> sortDirection == (if old(sortDirection) == Asc then Desc else Asc)
      ensures old(sortColumn) != column ==> sortDirection == Asc
      ensures salesOrdersByDate == old(salesOrdersByDate) && rows == old(rows) && globalFilterValue == old(globalFilterValue)
      ensures selectedPlant == old(selectedPlant) && activeWeekTab == old(activeWeekTab) && activeWeekIndex == old(activeWeekIndex)
    {
      if sortColumn == column {
        sortDirection := if sortDirection == Asc then Desc else Asc;
      } else {
        sortColumn := column;
        sortDirection := Asc;
      }
      currentPage := 1;
    }

    /** `resetSort()`: the rows are shown in the order of the filters. */
    method ResetSort()
      modifies this
      ensures sortColumn == "" && sortDirection == Asc && currentPage == 1
      ensures salesOrdersByDate == old(salesOrdersByDate) && rows == old(rows) && globalFilterValue == old(globalFilterValue)
      ensures selectedPlant == old(selectedPlant) && activeWeekTab == old(activeWeekTab) && activeWeekIndex == old(activeWeekIndex)
      ensures ActiveWeek().Some? ==> Data() == FilteredOrders(ActiveWeek().value.salesOrderMainList, selectedPlant, globalFilterValue)
    {
      sortColumn := "";
      sortDirection := Asc;
      currentPage := 1;
    }

    /** `goToPage(page)`: only a page between 1 and `totalPages` is taken. */
    method GoToPage(page: int)
      modifies this
      ensures 1 <= page <= old(Pages()) ==> currentPage == page
      ensures !(1 <= page <= old(Pages())) ==> currentPage == old(currentPage)
      ensures 1 <= old(currentPage) <= old(Pages()) ==> 1 <= currentPage <= Pages()
      ensures salesOrdersByDate == old(salesOrdersByDate) && rows == old(rows) && globalFilterValue == old(globalFilterValue)
      ensures selectedPlant == old(selectedPlant) && activeWeekTab == old(activeWeekTab) && activeWeekIndex == old(activeWeekIndex)
      ensures sortColumn == old(sortColumn) && sortDirection == old(sortDirection)
    {
      var maxPage := Pages();
      if page >= 1 && page <= maxPage {
        currentPage := page;
      }
    }

    /** `setActiveWeekTab(weekName, index)`: a new week is shown whole, in
      its own order, from page 1. */
    method SetActiveWeekTab(weekName: string, index: int)
      modifies this
      ensures activeWeekTab == weekName && activeWeekIndex == index
      ensures selectedPlant == "All" && globalFilterValue == "" && sortColumn == "" && sortDirection == Asc && currentPage == 1
      ensures salesOrdersByDate == old(salesOrdersByDate) && rows == old(rows)
      ensures Data() == if ActiveWeek().Some? then ActiveWeek().value.salesOrderMainList else []
    {
      activeWeekTab := weekName;
      activeWeekIndex := index;
      selectedPlant := "All";
      globalFilterValue := "";
      currentPage := 1;
      ResetSort();
    }

    /** `applyPlantFilter()` */
    method ApplyPlantFilter()
      modifies this
      ensures currentPage == 1
      ensures salesOrdersByDate == old(salesOrdersByDate) && rows == old(rows) && globalFilterValue == old(globalFilterValue)
      ensures selectedPlant == old(selectedPlant) && activeWeekTab == old(activeWeekTab) && activeWeekIndex == old(activeWeekIndex)
      ensures sortColumn == old(sortColumn) && sortDirection == old(sortDirection)
    {
      currentPage := 1;
    }

    /** Assigning `globalFilterValue`; its watcher returns to page 1 when the
      value changes. */
    method SetGlobalFilterValue(value: string)
      modifies this
      ensures globalFilterValue == value
      ensures currentPage == if value != old(globalFilterValue) then 1 else old(currentPage)
      ensures salesOrdersByDate == old(salesOrdersByDate) && rows == old(rows) && selectedPlant == old(selectedPlant)
      ensures activeWeekTab == old(activeWeekTab) && activeWeekIndex == old(activeWeekIndex)
      ensures sortColumn == old(sortColumn) && sortDirection == old(sortDirection)
    {
      if value != globalFilterValue {
        globalFilterValue := value;
        currentPage := 1;
      }
    }

    /** Assigning `selectedPlant`; its watcher returns to page 1 when the
      value changes. */
    method SetSelectedPlant(plant: string)
      modifies this
      ensures selectedPlant == plant
      ensures currentPage == if plant != old(selectedPlant) then 1 else old(currentPage)
      ensures salesOrdersByDate == old(salesOrdersByDate) && rows == old(rows) && globalFilterValue == old(globalFilterValue)
      ensures activeWeekTab == old(activeWeekTab) && activeWeekIndex == old(activeWeekIndex)
      ensures sortColumn == old(sortColumn) && sortDirection == old(sortDirection)
    {
      if plant != selectedPlant {
        selectedPlant := plant;
        currentPage := 1;
      }
    }

    /** Assigning `rows`; when the value changes its watcher moves a page
      past the new last page back to the last page (and leaves the page
      alone when there are no records). */
    method SetRows(newRows: Positive)
      modifies this
      ensures rows == newRows
      ensures currentPage == if newRows != old(rows) then PageAfterRowsChange(old(currentPage), |old(Data())|, newRows) else old(currentPage)
      ensures newRows != old(rows) && |old(Data())| > 0 ==> currentPage <= TotalPages(|old(Data())|, newRows)
      ensures salesOrdersByDate == old(salesOrdersByDate) && globalFilterValue == old(globalFilterValue) && selectedPlant == old(selectedPlant)
      ensures activeWeekTab == old(activeWeekTab) && activeWeekIndex == old(activeWeekIndex)
      ensures sortColumn == old(sortColumn) && sortDirection == old(sortDirection)
    {
      if newRows != rows {
        var page := PageAfterRowsChange(currentPage, |Data()|, newRows);
        SetPaging(newRows, page);
      }
    }

    /** Assigns the page size and the current page together. */
    method SetPaging(newRows: Positive, page: int)
      modifies this
      ensures rows == newRows && currentPage == page
      ensures salesOrdersByDate == old(salesOrdersByDate) && globalFilterValue == old(globalFilterValue) && selectedPlant == old(selectedPlant)
      ensures activeWeekTab == old(activeWeekTab) && activeWeekIndex == old(activeWeekIndex)
      ensures sortColumn == old(sortColumn) && sortDirection == old(sortDirection)
    {
      rows := newRows;
      currentPage := page;
    }
  }
}
