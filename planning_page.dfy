/**
 * The planning grid: the dense cross join of the live stores and SKUs
 * against the sparse planning items, the routing of an edited cell to the
 * planning reducer, the colour band of a margin-percent cell and the
 * grouping of week columns under their months.
 */
module PlanningPage {
  import opened Wrappers
  import opened Seqs
  import opened Text
  import opened PlanningSlice
  import opened StoresSlice
  import opened SkusSlice

  /** A calendar week: its id, its column label and the month it belongs to. */
  datatype CalendarWeek = CalendarWeek(week: string, weekLabel: string, monthLabel: string)

  /** The four figures shown for every week. */
  datatype Metric = SalesUnits | SalesDollars | GmDollars | GmPercent

  /** The column-id suffix of a metric. */
  function Suffix(m: Metric): string
  {
    match m
    case SalesUnits => "_salesUnits"
    case SalesDollars => "_salesDollars"
    case GmDollars => "_gmDollars"
    case GmPercent => "_gmPercent"
  }

  /** The column id, and row key, of one metric of one week: `${week}_salesUnits`, ... */
  function ColumnId(weekId: string, m: Metric): string
  {
    weekId + Suffix(m)
  }

  /** One figure of a stored week. */
  function MetricValue(w: WeekData, m: Metric): real
  {
    match m
    case SalesUnits => w.salesUnits
    case SalesDollars => w.salesDollars
    case GmDollars => w.gmDollars
    case GmPercent => w.gmPercent
  }

  /** The figure shown for a week: the stored one, or 0 when the week has no entry. */
  function CellValue(item: Option<PlanningItem>, weekId: string, m: Metric): real
  {
    if item.Some? && weekId in item.value.weeksData then MetricValue(item.value.weeksData[weekId], m) else 0.0
  }

  /** A row of the planning grid: the pair's fixed fields and its week cells keyed by column id. */
  datatype PlanningRow = PlanningRow(
    id: string,
    storeId: string,
    storeName: string,
    skuId: string,
    skuName: string,
    price: real,
    cost: real,
    cells: map<string, real>)

  /** The four keys a week adds to a row, set in the order the source assigns them. */
  function AddWeekCells(cells: map<string, real>, item: Option<PlanningItem>, weekId: string): map<string, real>
  {
    cells[ColumnId(weekId, SalesUnits) := CellValue(item, weekId, SalesUnits)]
         [ColumnId(weekId, SalesDollars) := CellValue(item, weekId, SalesDollars)]
         [ColumnId(weekId, GmDollars) := CellValue(item, weekId, GmDollars)]
         [ColumnId(weekId, GmPercent) := CellValue(item, weekId, GmPercent)]
  }

  /** The week cells of a row after the weeks have been visited in calendar order. */
  function WeekCells(weeks: seq<CalendarWeek>, item: Option<PlanningItem>): map<string, real>
  {
    if weeks == [] then map[]
    else AddWeekCells(WeekCells(weeks[..|weeks| - 1], item), item, weeks[|weeks| - 1].week)
  }

  /** The predicate the row lookup uses: the item of this store and SKU. */
  function IsPairOf(storeId: string, skuId: string): PlanningItem -> bool
  {
    HasKey(PairOf, (storeId, skuId))
  }

  /** The row of one store and one SKU. */
  function Row(store: PermanentStore, sku: PermanentSku, planning: seq<PlanningItem>, weeks: seq<CalendarWeek>): PlanningRow
  {
    PlanningRow(store.id + "-" + sku.id, store.id, store.name, sku.id, sku.sku, sku.price, sku.cost,
      WeekCells(weeks, Find(planning, IsPairOf(store.id, sku.id))))
  }

  /** The rows of one store, SKUs in list order. */
  function StoreRows(store: PermanentStore, skus: seq<PermanentSku>, planning: seq<PlanningItem>, weeks: seq<CalendarWeek>): seq<PlanningRow>
  {
    if skus == [] then []
    else StoreRows(store, skus[..|skus| - 1], planning, weeks) + [Row(store, skus[|skus| - 1], planning, weeks)]
  }

  /** The rows of the grid: stores outer, SKUs inner. */
  function CrossJoin(stores: seq<PermanentStore>, skus: seq<PermanentSku>, planning: seq<PlanningItem>, weeks: seq<CalendarWeek>): seq<PlanningRow>
  {
    if stores == [] then []
    else CrossJoin(stores[..|stores| - 1], skus, planning, weeks) + StoreRows(stores[|stores| - 1], skus, planning, weeks)
  }

  /**
   * `rowData`: the nested `forEach` over stores and then SKUs, pushing one
   * row per pair.
   */
  method BuildRowData(stores: seq<PermanentStore>, skus: seq<PermanentSku>, planning: seq<PlanningItem>, weeks: seq<CalendarWeek>)
    returns (rows: seq<PlanningRow>)
    ensures rows == CrossJoin(stores, skus, planning, weeks)
  {
    rows := [];
    var i := 0;
    while i < |stores|
      invariant 0 <= i <= |stores|
      invariant rows == CrossJoin(stores[..i], skus, planning, weeks)
    {
      var store := stores[i];
      ghost var before := rows;
      var j := 0;
      while j < |skus|
        invariant 0 <= j <= |skus|
        invariant rows == before + StoreRows(store, skus[..j], planning, weeks)
      {
        var row := BuildRow(store, skus[j], planning, weeks);
        StoreRowsSnoc(store, skus, planning, weeks, j);
        rows := rows + [row];
        j := j + 1;
      }
      assert skus[..j] == skus;
      CrossJoinSnoc(stores, skus, planning, weeks, i);
      i := i + 1;
    }
    assert stores[..i] == stores;
  }

  /** One more SKU adds its row at the end of the store's rows. */
  lemma StoreRowsSnoc(store: PermanentStore, skus: seq<PermanentSku>, planning: seq<PlanningItem>, weeks: seq<CalendarWeek>, j: nat)
    requires j < |skus|
    ensures StoreRows(store, skus[..j + 1], planning, weeks) == StoreRows(store, skus[..j], planning, weeks) + [Row(store, skus[j], planning, weeks)]
  {
    assert skus[..j + 1][..j] == skus[..j];
  }

  /** One more store adds its block of rows at the end of the grid. */
  lemma CrossJoinSnoc(stores: seq<PermanentStore>, skus: seq<PermanentSku>, planning: seq<PlanningItem>, weeks: seq<CalendarWeek>, i: nat)
    requires i < |stores|
    ensures CrossJoin(stores[..i + 1], skus, planning, weeks) == CrossJoin(stores[..i], skus, planning, weeks) + StoreRows(stores[i], skus, planning, weeks)
  {
    assert stores[..i + 1][..i] == stores[..i];
  }

  /**
   * The body of the inner `forEach`: look up the pair's item, copy the live
   * store and SKU fields, then assign the four keys of every week.
   */
  method BuildRow(store: PermanentStore, sku: PermanentSku, planning: seq<PlanningItem>, weeks: seq<CalendarWeek>)
    returns (row: PlanningRow)
    ensures row == Row(store, sku, planning, weeks)
  {
    var planningItem := Find(planning, IsPairOf(store.id, sku.id));
    var cells: map<string, real> := map[];
    var k := 0;
    while k < |weeks|
      invariant 0 <= k <= |weeks|
      invariant cells == WeekCells(weeks[..k], planningItem)
    {
      ghost var before := cells;
      var weekId := weeks[k].week;
      cells := cells[ColumnId(weekId, SalesUnits) := CellValue(planningItem, weekId, SalesUnits)];
      cells := cells[ColumnId(weekId, SalesDollars) := CellValue(planningItem, weekId, SalesDollars)];
      cells := cells[ColumnId(weekId, GmDollars) := CellValue(planningItem, weekId, GmDollars)];
      cells := cells[ColumnId(weekId, GmPercent) := CellValue(planningItem, weekId, GmPercent)];
      assert cells == AddWeekCells(before, planningItem, weekId);
      assert weeks[..k + 1][..k] == weeks[..k] && weeks[..k + 1][k] == weeks[k];
      k := k + 1;
    }
    assert weeks[..k] == weeks;
    row := PlanningRow(store.id + "-" + sku.id, store.id, store.name, sku.id, sku.sku, sku.price, sku.cost, cells);
  }

  /** A store contributes one row per SKU, in SKU order. */
  lemma {:induction false} StoreRowsAt(store: PermanentStore, skus: seq<PermanentSku>, planning: seq<PlanningItem>, weeks: seq<CalendarWeek>)
    ensures |StoreRows(store, skus, planning, weeks)| == |skus|
    ensures forall j :: 0 <= j < |skus| ==> StoreRows(store, skus, planning, weeks)[j] == Row(store, skus[j], planning, weeks)
  {
    if skus != [] {
      StoreRowsAt(store, skus[..|skus| - 1], planning, weeks);
    }
  }

  /** The grid has exactly |stores| * |skus| rows. */
  lemma {:induction false} CrossJoinSize(stores: seq<PermanentStore>, skus: seq<PermanentSku>, planning: seq<PlanningItem>, weeks: seq<CalendarWeek>)
    ensures |CrossJoin(stores, skus, planning, weeks)| == |stores| * |skus|
  {
    if stores != [] {
      var n := |stores| - 1;
      CrossJoinSize(stores[..n], skus, planning, weeks);
      StoreRowsAt(stores[n], skus, planning, weeks);
      assert |CrossJoin(stores, skus, planning, weeks)| == n * |skus| + |skus|;
      NextBlock(n, |skus|);
    }
  }

  /** One more block of `k` rows: `n * k + k == (n + 1) * k`. */
  lemma NextBlock(n: nat, k: nat)
    ensures n * k + k == (n + 1) * k
  {
  }

  /** `i * k + j < n * k` when `i < n` and `j < k`: the blocks of the grid do not overlap. */
  lemma BlockBound(i: nat, j: nat, n: nat, k: nat)
    requires i < n && j < k
    ensures 0 <= i * k && i * k + j < n * k
    decreases n
  {
    if i + 1 < n {
      BlockBound(i, j, n - 1, k);
      assert (n - 1) * k + k == n * k;
    } else {
      assert i * k + k == n * k;
    }
  }

  /** The grid's rows before the last store's block are the rows of the shorter grid. */
  lemma CrossJoinFront(stores: seq<PermanentStore>, skus: seq<PermanentSku>, planning: seq<PlanningItem>, weeks: seq<CalendarWeek>, x: nat)
    requires stores != [] && x < |CrossJoin(stores[..|stores| - 1], skus, planning, weeks)|
    ensures x < |CrossJoin(stores, skus, planning, weeks)|
    ensures CrossJoin(stores, skus, planning, weeks)[x] == CrossJoin(stores[..|stores| - 1], skus, planning, weeks)[x]
  {
  }

  /** The last store's block closes the grid, one row per SKU. */
  lemma CrossJoinBack(stores: seq<PermanentStore>, skus: seq<PermanentSku>, planning: seq<PlanningItem>, weeks: seq<CalendarWeek>, j: nat)
    requires stores != [] && j < |skus|
    ensures |CrossJoin(stores[..|stores| - 1], skus, planning, weeks)| + j < |CrossJoin(stores, skus, planning, weeks)|
    ensures CrossJoin(stores, skus, planning, weeks)[|CrossJoin(stores[..|stores| - 1], skus, planning, weeks)| + j]
      == Row(stores[|stores| - 1], skus[j], planning, weeks)
  {
    StoreRowsAt(stores[|stores| - 1], skus, planning, weeks);
  }

  /** Row `i * |skus| + j` of the grid is the row of store `i` and SKU `j`. */
  lemma {:induction false} CrossJoinAt(stores: seq<PermanentStore>, skus: seq<PermanentSku>, planning: seq<PlanningItem>, weeks: seq<CalendarWeek>, i: nat, j: nat)
    requires i < |stores| && j < |skus|
    ensures i * |skus| + j < |CrossJoin(stores, skus, planning, weeks)|
    ensures CrossJoin(stores, skus, planning, weeks)[i * |skus| + j] == Row(stores[i], skus[j], planning, weeks)
    decreases |stores|, 1
  {
    if i < |stores| - 1 {
      CrossJoinAtEarlier(stores, skus, planning, weeks, i, j);
    } else {
      CrossJoinSize(stores[..i], skus, planning, weeks);
      CrossJoinBack(stores, skus, planning, weeks, j);
    }
  }

  /** The case of `CrossJoinAt` where store `i` is not the last one. */
  lemma {:induction false} CrossJoinAtEarlier(stores: seq<PermanentStore>, skus: seq<PermanentSku>, planning: seq<PlanningItem>, weeks: seq<CalendarWeek>, i: nat, j: nat)
    requires i < |stores| - 1 && j < |skus|
    ensures i * |skus| + j < |CrossJoin(stores, skus, planning, weeks)|
    ensures CrossJoin(stores, skus, planning, weeks)[i * |skus| + j] == Row(stores[i], skus[j], planning, weeks)
    decreases |stores|, 0
  {
    var n := |stores| - 1;
    var prefix := stores[..n];
    var k := |skus|;
    var x := i * k + j;
    CrossJoinSize(prefix, skus, planning, weeks);
    BlockBound(i, j, n, k);
    assert x < |CrossJoin(prefix, skus, planning, weeks)|;
    CrossJoinAt(prefix, skus, planning, weeks, i, j);
    assert CrossJoin(prefix, skus, planning, weeks)[x] == Row(prefix[i], skus[j], planning, weeks);
    CrossJoinFront(stores, skus, planning, weeks, x);
    assert stores[i] == prefix[i];
  }



  /** Distinct (week, metric) pairs give distinct column ids: no suffix ends another. */
  lemma ColumnIdInjective(a: string, m: Metric, b: string, n: Metric)
    requires ColumnId(a, m) == ColumnId(b, n)
    ensures a == b && m == n
  {
    CommonEnding(a, Suffix(m), b, Suffix(n));
    CommonEnding(b, Suffix(n), a, Suffix(m));
    SuffixesDistinct(m, n);
    SuffixesDistinct(n, m);
  }

  /** Two ways of writing one string: the shorter ending ends the longer, and equal endings leave equal fronts. */
  lemma CommonEnding(a: string, s: string, b: string, t: string)
    requires a + s == b + t
    ensures |s| <= |t| ==> s == t[|t| - |s|..]
    ensures |s| == |t| ==> a == b
  {
    var x := a + s;
    if |s| <= |t| {
      assert x[|x| - |s|..] == s;
      assert x[|x| - |s|..] == (b + t)[|x| - |s|..] == t[|t| - |s|..];
    }
    if |s| == |t| {
      assert a == x[..|a|] == (b + t)[..|b|] == b;
    }
  }

  /** A suffix that ends another suffix is that suffix. */
  lemma SuffixesDistinct(m: Metric, n: Metric)
    ensures |Suffix(m)| <= |Suffix(n)| && Suffix(m) == Suffix(n)[|Suffix(n)| - |Suffix(m)|..] ==> m == n
  {
  }

  /** What the four assignments of one week leave under any key. */
  lemma AddWeekCellsAt(cells: map<string, real>, item: Option<PlanningItem>, weekId: string, key: string)
    ensures key in AddWeekCells(cells, item, weekId) <==>
      key in cells || exists m :: key == ColumnId(weekId, m)
    ensures forall m :: key == ColumnId(weekId, m) ==> AddWeekCells(cells, item, weekId)[key] == CellValue(item, weekId, m)
    ensures (forall m :: key != ColumnId(weekId, m)) && key in cells ==> AddWeekCells(cells, item, weekId)[key] == cells[key]
  {
    forall m | key == ColumnId(weekId, m) ensures AddWeekCells(cells, item, weekId)[key] == CellValue(item, weekId, m) {
      forall n | n != m ensures ColumnId(weekId, n) != key {
        if ColumnId(weekId, n) == key {
          ColumnIdInjective(weekId, n, weekId, m);
        }
      }
    }
    if exists m :: key == ColumnId(weekId, m) {
      var m :| key == ColumnId(weekId, m);
      match m
      case SalesUnits =>
      case SalesDollars =>
      case GmDollars =>
      case GmPercent =>
    }
  }

  /**
   * Every week of the calendar shows, under each of its four column ids, the
   * figure stored for it or 0; the row has no other week keys.
   */
  lemma {:induction false} WeekCellsAt(weeks: seq<CalendarWeek>, item: Option<PlanningItem>, w: CalendarWeek, m: Metric)
    requires w in weeks
    ensures ColumnId(w.week, m) in WeekCells(weeks, item)
    ensures WeekCells(weeks, item)[ColumnId(w.week, m)] == CellValue(item, w.week, m)
  {
    var prefix, last := weeks[..|weeks| - 1], weeks[|weeks| - 1];
    var key := ColumnId(w.week, m);
    AddWeekCellsAt(WeekCells(prefix, item), item, last.week, key);
    if w.week != last.week {
      assert w in prefix by {
        var i :| 0 <= i < |weeks| && weeks[i] == w;
        assert prefix[i] == w;
      }
      WeekCellsAt(prefix, item, w, m);
      forall n ensures key != ColumnId(last.week, n) {
        if key == ColumnId(last.week, n) {
          ColumnIdInjective(w.week, m, last.week, n);
        }
      }
    }
  }

  /** Every key of a row's week cells is a column id of one of the calendar weeks. */
  lemma {:induction false} WeekCellsKeys(weeks: seq<CalendarWeek>, item: Option<PlanningItem>, key: string)
    requires key in WeekCells(weeks, item)
    ensures exists w, m :: w in weeks && key == ColumnId(w.week, m)
  {
    var prefix, last := weeks[..|weeks| - 1], weeks[|weeks| - 1];
    AddWeekCellsAt(WeekCells(prefix, item), item, last.week, key);
    assert last in weeks;
    if key in WeekCells(prefix, item) {
      WeekCellsKeys(prefix, item, key);
      var w, m :| w in prefix && key == ColumnId(w.week, m);
      assert w in weeks;
    }
  }

  /** Every row of the grid belongs to a live store and a live SKU. */
  lemma {:induction false} CrossJoinRowsAreLive(stores: seq<PermanentStore>, skus: seq<PermanentSku>, planning: seq<PlanningItem>, weeks: seq<CalendarWeek>, row: PlanningRow)
    requires row in CrossJoin(stores, skus, planning, weeks)
    ensures exists store :: store in stores && row.storeId == store.id
    ensures exists sku :: sku in skus && row.skuId == sku.id
  {
    var n := |stores| - 1;
    var prefix := stores[..n];
    if row in CrossJoin(prefix, skus, planning, weeks) {
      CrossJoinRowsAreLive(prefix, skus, planning, weeks, row);
      var store :| store in prefix && row.storeId == store.id;
      assert store in stores;
    } else {
      var rest := StoreRows(stores[n], skus, planning, weeks);
      assert row in rest;
      StoreRowsAt(stores[n], skus, planning, weeks);
      var j :| 0 <= j < |rest| && rest[j] == row;
      assert stores[n] in stores && skus[j] in skus;
    }
  }

  /**
   * Deleting a SKU removes its rows from the grid at once, while the
   * planning items of that SKU stay where they are (there is no cascade).
   */
  lemma DeletedSkuLeavesGrid(stores: seq<PermanentStore>, skus: seq<PermanentSku>, planning: seq<PlanningItem>, weeks: seq<CalendarWeek>, id: string)
    ensures forall row :: row in CrossJoin(stores, RemoveByKey(skus, SkuId, id), planning, weeks) ==> row.skuId != id
  {
    var remaining := RemoveByKey(skus, SkuId, id);
    forall row | row in CrossJoin(stores, remaining, planning, weeks) ensures row.skuId != id {
      CrossJoinRowsAreLive(stores, remaining, planning, weeks, row);
      var sku :| sku in remaining && row.skuId == sku.id;
      var i :| 0 <= i < |remaining| && remaining[i] == sku;
    }
  }

  /** Deleting a store removes its rows from the grid at once. */
  lemma DeletedStoreLeavesGrid(stores: seq<PermanentStore>, skus: seq<PermanentSku>, planning: seq<PlanningItem>, weeks: seq<CalendarWeek>, id: string)
    ensures forall row :: row in CrossJoin(RemoveByKey(stores, StoreId, id), skus, planning, weeks) ==> row.storeId != id
  {
    var remaining := RemoveByKey(stores, StoreId, id);
    forall row | row in CrossJoin(remaining, skus, planning, weeks) ensures row.storeId != id {
      CrossJoinRowsAreLive(remaining, skus, planning, weeks, row);
      var store :| store in remaining && row.storeId == store.id;
      var i :| 0 <= i < |remaining| && remaining[i] == store;
      assert StoreId(remaining[i]) != id;
    }
  }

  /** The items whose store and SKU are both live. */
  function IsLive(stores: seq<PermanentStore>, skus: seq<PermanentSku>): PlanningItem -> bool
  {
    (item: PlanningItem) => (exists s :: s in stores && s.id == item.storeId) && (exists k :: k in skus && k.id == item.skuId)
  }

  /** Two planning lists give the same grid when they give every live pair the same row. */
  lemma {:induction false} CrossJoinPointwise(stores: seq<PermanentStore>, skus: seq<PermanentSku>, p1: seq<PlanningItem>, p2: seq<PlanningItem>, weeks: seq<CalendarWeek>)
    requires forall s, k :: s in stores && k in skus ==> Row(s, k, p1, weeks) == Row(s, k, p2, weeks)
    ensures CrossJoin(stores, skus, p1, weeks) == CrossJoin(stores, skus, p2, weeks)
  {
    if stores != [] {
      var n := |stores| - 1;
      CrossJoinPointwise(stores[..n], skus, p1, p2, weeks);
      StoreRowsAt(stores[n], skus, p1, weeks);
      StoreRowsAt(stores[n], skus, p2, weeks);
      assert stores[n] in stores;
      assert StoreRows(stores[n], skus, p1, weeks) == StoreRows(stores[n], skus, p2, weeks);
    }
  }

  /**
   * Planning items whose store or SKU is not live do not affect the grid:
   * dropping them all leaves every row as it was.
   */
  lemma OrphansAreInvisible(stores: seq<PermanentStore>, skus: seq<PermanentSku>, planning: seq<PlanningItem>, weeks: seq<CalendarWeek>)
    ensures CrossJoin(stores, skus, Filter(planning, IsLive(stores, skus)), weeks) == CrossJoin(stores, skus, planning, weeks)
  {
    var live := Filter(planning, IsLive(stores, skus));
    forall s, k | s in stores && k in skus ensures Row(s, k, live, weeks) == Row(s, k, planning, weeks) {
      forall x | IsPairOf(s.id, k.id)(x) ensures IsLive(stores, skus)(x) {
        assert PairOf(x) == (s.id, k.id);
      }
      FindAfterFilter(planning, IsLive(stores, skus), IsPairOf(s.id, k.id));
    }
    CrossJoinPointwise(stores, skus, live, planning, weeks);
  }

  /**
   * The grid shows an update at once: after the pair's units for a calendar
   * week are updated, the pair's row shows under that week's four column ids
   * the freshly computed figures.
   */
  lemma UpsertShowsInGrid(store: PermanentStore, sku: PermanentSku, planning: seq<PlanningItem>, weeks: seq<CalendarWeek>, p: UpdatePayload, w: CalendarWeek, m: Metric)
    requires p.storeId == store.id && p.skuId == sku.id && w in weeks && w.week == p.weekId
    ensures ColumnId(w.week, m) in Row(store, sku, Upserted(planning, p), weeks).cells
    ensures Row(store, sku, Upserted(planning, p), weeks).cells[ColumnId(w.week, m)] == MetricValue(ComputeWeekData(p), m)
  {
    var r := Upserted(planning, p);
    UpsertWritesWeek(planning, p);
    assert Find(r, IsPairOf(store.id, sku.id)) == Some(r[FindPair(r, p.storeId, p.skuId)]);
    WeekCellsAt(weeks, Find(r, IsPairOf(store.id, sku.id)), w, m);
  }

  // Cell-edit routing

  /**
   * `onCellValueChanged`: a numeric edit of a `_salesUnits` column becomes
   * the update of that week for the row's store and SKU, priced with the
   * row's price and cost; any other edit is dropped. `None` stands for a
   * value that is not a number.
   */
  function OnCellValueChanged(colId: string, row: PlanningRow, newValue: Option<real>): (r: Option<UpdatePayload>)
    ensures r.Some? ==> newValue.Some? && r.value.salesUnits == newValue.value
    ensures r.Some? ==> r.value.storeId == row.storeId && r.value.skuId == row.skuId
    ensures r.Some? ==> r.value.price == row.price && r.value.cost == row.cost
    ensures r.Some? <==> newValue.Some? && Includes(colId, "_salesUnits")
    ensures r.Some? ==> '_' !in r.value.weekId && StartsWith(colId, r.value.weekId)
    ensures r.Some? ==> r.value.weekId == BeforeFirst(colId, '_')
  {
    if newValue.None? then None
    else if Includes(colId, "_salesUnits") then
      Some(UpdatePayload(row.storeId, row.skuId, BeforeFirst(colId, '_'), newValue.value, row.price, row.cost))
    else None
  }

  /** Of the four suffixes only the units suffix contains `_salesUnits`. */
  lemma SuffixRoutes(m: Metric)
    ensures Includes(Suffix(m), "_salesUnits") <==> m == SalesUnits
  {
    var s, sub := Suffix(m), "_salesUnits";
    match m {
      case SalesUnits =>
        assert StartsWith(s, sub);
      case SalesDollars =>
        DollarsSuffixLacksUnits();
      case GmDollars =>
        IncludesNeedsRoom(s, sub);
      case GmPercent =>
        IncludesNeedsRoom(s, sub);
    }
  }

  /** `_salesDollars` shares its first six characters with `_salesUnits`, and no more. */
  lemma DollarsSuffixLacksUnits()
    ensures !Includes("_salesDollars", "_salesUnits")
  {
    var s, sub := "_salesDollars", "_salesUnits";
    assert s[6] != sub[6];
    assert s[1..][0] != sub[0];
    assert s[2..][0] != sub[0];
    assert s[1..][1..] == s[2..] && s[2..][1..] == s[3..];
    IncludesNeedsRoom(s[3..], sub);
  }

  /**
   * On the column ids the grid lays out (week ids free of `_`), an edit is
   * routed exactly when it is a number entered in a units column, and it
   * then updates that column's week with the number.
   */
  lemma RoutingByColumn(weekId: string, m: Metric, row: PlanningRow, newValue: Option<real>)
    requires '_' !in weekId
    ensures OnCellValueChanged(ColumnId(weekId, m), row, newValue).Some? <==> newValue.Some? && m == SalesUnits
    ensures OnCellValueChanged(ColumnId(weekId, m), row, newValue).Some? ==>
      OnCellValueChanged(ColumnId(weekId, m), row, newValue).value
        == UpdatePayload(row.storeId, row.skuId, weekId, newValue.value, row.price, row.cost)
  {
    var s := Suffix(m);
    assert s[0] == '_';
    IncludesSkipsPrefix(weekId, s, "_salesUnits");
    SuffixRoutes(m);
    BeforeFirstOfJoin(weekId, s, '_');
  }

  /**
   * The edit handler wired to the planning state: a routed edit dispatches
   * `updatePlanningItem`, any other leaves the state alone.
   */
  method CellValueChanged(state: PlanningState, colId: string, row: PlanningRow, newValue: Option<real>)
    modifies state
    ensures state.planningData == match OnCellValueChanged(colId, row, newValue)
      case Some(p) => Upserted(old(state.planningData), p)
      case None => old(state.planningData)
  {
    var payload := OnCellValueChanged(colId, row, newValue);
    if payload.Some? {
      state.UpdatePlanningItem(payload.value);
    }
  }

  /**
   * End to end: entering `v` units in the units cell of a week of the grid
   * row of a store and SKU makes that row show `v` units, `v * price` sales
   * dollars and `v * (price - cost)` margin dollars for the week, at the
   * SKU's live price and cost.
   */
  lemma UnitsEditShowsInGrid(store: PermanentStore, sku: PermanentSku, planning: seq<PlanningItem>, weeks: seq<CalendarWeek>, w: CalendarWeek, v: real)
    requires w in weeks && '_' !in w.week
    ensures OnCellValueChanged(ColumnId(w.week, SalesUnits), Row(store, sku, planning, weeks), Some(v))
      == Some(UpdatePayload(store.id, sku.id, w.week, v, sku.price, sku.cost))
    ensures ColumnId(w.week, SalesUnits) in Row(store, sku, Upserted(planning, UpdatePayload(store.id, sku.id, w.week, v, sku.price, sku.cost)), weeks).cells
    ensures Row(store, sku, Upserted(planning, UpdatePayload(store.id, sku.id, w.week, v, sku.price, sku.cost)), weeks).cells[ColumnId(w.week, SalesUnits)] == v
    ensures ColumnId(w.week, SalesDollars) in Row(store, sku, Upserted(planning, UpdatePayload(store.id, sku.id, w.week, v, sku.price, sku.cost)), weeks).cells
    ensures Row(store, sku, Upserted(planning, UpdatePayload(store.id, sku.id, w.week, v, sku.price, sku.cost)), weeks).cells[ColumnId(w.week, SalesDollars)] == v * sku.price
    ensures ColumnId(w.week, GmDollars) in Row(store, sku, Upserted(planning, UpdatePayload(store.id, sku.id, w.week, v, sku.price, sku.cost)), weeks).cells
    ensures Row(store, sku, Upserted(planning, UpdatePayload(store.id, sku.id, w.week, v, sku.price, sku.cost)), weeks).cells[ColumnId(w.week, GmDollars)] == v * (sku.price - sku.cost)
  {
    UnitsEditRoutes(store, sku, planning, weeks, w, v);
    UnitsUpsertShows(store, sku, planning, weeks, w, v);
  }

  /** The routing half: a units edit becomes the update of that week at the SKU's price and cost. */
  lemma UnitsEditRoutes(store: PermanentStore, sku: PermanentSku, planning: seq<PlanningItem>, weeks: seq<CalendarWeek>, w: CalendarWeek, v: real)
    requires w in weeks && '_' !in w.week
    ensures OnCellValueChanged(ColumnId(w.week, SalesUnits), Row(store, sku, planning, weeks), Some(v))
      == Some(UpdatePayload(store.id, sku.id, w.week, v, sku.price, sku.cost))
  {
    RoutingByColumn(w.week, SalesUnits, Row(store, sku, planning, weeks), Some(v));
  }

  /** The display half: after that update the row shows the week's three figures. */
  lemma UnitsUpsertShows(store: PermanentStore, sku: PermanentSku, planning: seq<PlanningItem>, weeks: seq<CalendarWeek>, w: CalendarWeek, v: real)
    requires w in weeks
    ensures ColumnId(w.week, SalesUnits) in Row(store, sku, Upserted(planning, UpdatePayload(store.id, sku.id, w.week, v, sku.price, sku.cost)), weeks).cells
    ensures Row(store, sku, Upserted(planning, UpdatePayload(store.id, sku.id, w.week, v, sku.price, sku.cost)), weeks).cells[ColumnId(w.week, SalesUnits)] == v
    ensures ColumnId(w.week, SalesDollars) in Row(store, sku, Upserted(planning, UpdatePayload(store.id, sku.id, w.week, v, sku.price, sku.cost)), weeks).cells
    ensures Row(store, sku, Upserted(planning, UpdatePayload(store.id, sku.id, w.week, v, sku.price, sku.cost)), weeks).cells[ColumnId(w.week, SalesDollars)] == v * sku.price
    ensures ColumnId(w.week, GmDollars) in Row(store, sku, Upserted(planning, UpdatePayload(store.id, sku.id, w.week, v, sku.price, sku.cost)), weeks).cells
    ensures Row(store, sku, Upserted(planning, UpdatePayload(store.id, sku.id, w.week, v, sku.price, sku.cost)), weeks).cells[ColumnId(w.week, GmDollars)] == v * (sku.price - sku.cost)
  {
    var p := UpdatePayload(store.id, sku.id, w.week, v, sku.price, sku.cost);
    var d := ComputeWeekData(p);
    assert d.salesUnits == v && d.salesDollars == v * sku.price && d.gmDollars == v * (sku.price - sku.cost);
    UpsertShowsInGrid(store, sku, planning, weeks, p, w, SalesUnits);
    UpsertShowsInGrid(store, sku, planning, weeks, p, w, SalesDollars);
    UpsertShowsInGrid(store, sku, planning, weeks, p, w, GmDollars);
  }

  // GM-percent colour banding

  /** The four colour bands of a margin-percent cell. */
  datatype Band = Green | Yellow | Orange | Red

  /** The inline style of a cell: background and text colour. */
  datatype CellStyle = CellStyle(backgroundColor: string, color: string)

  /** The band of a margin percent, the thresholds checked from the top. */
  function GmPercentBand(v: real): (b: Band)
    ensures b == Green <==> 40.0 <= v
    ensures b == Yellow <==> 10.0 <= v < 40.0
    ensures b == Orange <==> 5.0 < v < 10.0
    ensures b == Red <==> v <= 5.0
  {
    if v >= 40.0 then Green
    else if v >= 10.0 then Yellow
    else if v > 5.0 then Orange
    else Red
  }

  /** The colours of each band. */
  function BandStyle(b: Band): CellStyle
  {
    match b
    case Green => CellStyle("hsl(122.55deg 40.87% 45.1%)", "white")
    case Yellow => CellStyle("hsl(48deg 95.83% 52.94%)", "black")
    case Orange => CellStyle("hsl(27.02deg 95.98% 60.98%)", "black")
    case Red => CellStyle("hsl(0deg 95.65% 81.96%)", "white")
  }

  /** `gmPercentCellStyle`: the colours of the band the margin falls in. */
  function GmPercentCellStyle(v: real): (style: CellStyle)
    ensures 40.0 <= v ==> style == CellStyle("hsl(122.55deg 40.87% 45.1%)", "white")
    ensures 10.0 <= v < 40.0 ==> style == CellStyle("hsl(48deg 95.83% 52.94%)", "black")
    ensures 5.0 < v < 10.0 ==> style == CellStyle("hsl(27.02deg 95.98% 60.98%)", "black")
    ensures v <= 5.0 ==> style == CellStyle("hsl(0deg 95.65% 81.96%)", "white")
  {
    BandStyle(GmPercentBand(v))
  }

  /** The rank of a band, from red (0) to green (3). */
  function BandRank(b: Band): nat
  {
    match b
    case Red => 0
    case Orange => 1
    case Yellow => 2
    case Green => 3
  }

  /** A higher margin never gets a lower band. */
  lemma BandMonotone(v: real, u: real)
    requires v <= u
    ensures BandRank(GmPercentBand(v)) <= BandRank(GmPercentBand(u))
  {
  }

  /**
   * The colour of a stored week depends on the price and cost it was
   * computed with, not on how many units were entered, as long as sales
   * dollars are positive.
   */
  lemma BandIgnoresUnits(p: UpdatePayload, q: UpdatePayload)
    requires p.price == q.price && p.cost == q.cost
    requires ComputeWeekData(p).salesDollars > 0.0 && ComputeWeekData(q).salesDollars > 0.0
    ensures GmPercentCellStyle(ComputeWeekData(p).gmPercent) == GmPercentCellStyle(ComputeWeekData(q).gmPercent)
  {
  }

  // Column layout: week columns grouped under their months

  /** A leaf column: header, the row key it shows, whether it can be edited and banded. */
  datatype ColumnDef = ColumnDef(headerName: string, field: string, editable: bool, banded: bool)

  /** The column group of one week. */
  datatype WeekGroup = WeekGroup(headerName: string, children: seq<ColumnDef>)

  /** The column group of one month. */
  datatype MonthGroup = MonthGroup(headerName: string, children: seq<WeekGroup>)

  /** The two pinned columns ahead of the weeks: store name and SKU name, read-only. */
  const PinnedColumns: seq<ColumnDef> :=
    [ColumnDef("Store", "storeName", false, false), ColumnDef("SKU", "skuName", false, false)]

  /**
   * The pinned columns are read-only and unbanded, and no week column can
   * be mistaken for them: every week column id holds an underscore and
   * neither pinned field does.
   */
  lemma PinnedColumnsReadOnly(weekId: string, m: Metric)
    ensures |PinnedColumns| == 2 && PinnedColumns[0].field == "storeName" && PinnedColumns[1].field == "skuName"
    ensures forall c :: c in PinnedColumns ==> !c.editable && !c.banded && c.field != ColumnId(weekId, m)
  {
    var id := ColumnId(weekId, m);
    assert id[|weekId|] == Suffix(m)[0] == '_';
    assert '_' in id;
    assert '_' !in "storeName" && '_' !in "skuName";
  }

  /** The four columns of a week; only the units column is editable, only the percent column banded. */
  function WeekColumns(weekId: string): (cols: seq<ColumnDef>)
    ensures |cols| == 4
    ensures forall i :: 0 <= i < 4 && cols[i].editable ==> cols[i].field == ColumnId(weekId, SalesUnits)
    ensures cols[0].editable && cols[0].field == ColumnId(weekId, SalesUnits)
    ensures cols[1].field == ColumnId(weekId, SalesDollars) && cols[2].field == ColumnId(weekId, GmDollars)
    ensures cols[3].field == ColumnId(weekId, GmPercent)
    ensures forall i :: 1 <= i < 4 ==> !cols[i].editable
    ensures forall i :: 0 <= i < 4 ==> (cols[i].banded <==> i == 3)
  {
    [ColumnDef("Sales Units", ColumnId(weekId, SalesUnits), true, false),
     ColumnDef("Sales Dollars", ColumnId(weekId, SalesDollars), false, false),
     ColumnDef("GM Dollars", ColumnId(weekId, GmDollars), false, false),
     ColumnDef("GM Percent", ColumnId(weekId, GmPercent), false, true)]
  }

  /** The group a week contributes: headed by its label, holding its four columns. */
  function WeekGroupOf(w: CalendarWeek): WeekGroup
  {
    WeekGroup(w.weekLabel, WeekColumns(w.week))
  }

  /** The week groups of a run of weeks, in order. */
  function WeekGroups(weeks: seq<CalendarWeek>): (r: seq<WeekGroup>)
    ensures |r| == |weeks| && forall i :: 0 <= i < |weeks| ==> r[i] == WeekGroupOf(weeks[i])
  {
    seq(|weeks|, i requires 0 <= i < |weeks| => WeekGroupOf(weeks[i]))
  }

  /** The month labels of the weeks, each once, in order of first appearance. */
  function MonthLabels(weeks: seq<CalendarWeek>): seq<string>
  {
    if weeks == [] then []
    else
      var labels := MonthLabels(weeks[..|weeks| - 1]);
      var month := weeks[|weeks| - 1].monthLabel;
      if month in labels then labels else labels + [month]
  }

  /** The weeks of one month. */
  function InMonth(month: string): CalendarWeek -> bool
  {
    (w: CalendarWeek) => w.monthLabel == month
  }

  /** The lookup the reducer does: the group headed by a month label. */
  function HeaderIs(month: string): MonthGroup -> bool
  {
    (group: MonthGroup) => group.headerName == month
  }

  /**
   * The month groups, stated declaratively: one per distinct month label in
   * order of first appearance, each holding the groups of that month's
   * weeks in calendar order.
   */
  function MonthGroups(weeks: seq<CalendarWeek>): (r: seq<MonthGroup>)
    ensures |r| == |MonthLabels(weeks)|
    ensures forall i :: 0 <= i < |r| ==> r[i].headerName == MonthLabels(weeks)[i]
  {
    var labels := MonthLabels(weeks);
    seq(|labels|, i requires 0 <= i < |labels| => MonthGroup(labels[i], WeekGroups(Filter(weeks, InMonth(labels[i])))))
  }

  /** The month labels are distinct. */
  lemma {:induction false} MonthLabelsDistinct(weeks: seq<CalendarWeek>)
    ensures forall i, j :: 0 <= i < j < |MonthLabels(weeks)| ==> MonthLabels(weeks)[i] != MonthLabels(weeks)[j]
  {
    if weeks != [] {
      MonthLabelsDistinct(weeks[..|weeks| - 1]);
    }
  }

  /** A label is a month label exactly when some week carries it. */
  lemma {:induction false} MonthLabelsCover(weeks: seq<CalendarWeek>, month: string)
    ensures month in MonthLabels(weeks) <==> exists w :: w in weeks && w.monthLabel == month
  {
    if weeks != [] {
      var prefix := weeks[..|weeks| - 1];
      MonthLabelsCover(prefix, month);
      assert weeks == prefix + [weeks[|weeks| - 1]];
    }
  }

  /**
   * Months appear in the order of their first week: a month listed before
   * another has its first week earlier in the calendar.
   */
  lemma {:induction false} MonthLabelsInFirstAppearanceOrder(weeks: seq<CalendarWeek>, i: nat, j: nat)
    requires i < j < |MonthLabels(weeks)|
    ensures 0 <= FindIndex(weeks, InMonth(MonthLabels(weeks)[i])) < FindIndex(weeks, InMonth(MonthLabels(weeks)[j]))
  {
    var n := |weeks| - 1;
    var prefix, last := weeks[..n], weeks[n];
    var labels := MonthLabels(prefix);
    assert weeks == prefix + [last];
    var a, b := MonthLabels(weeks)[i], MonthLabels(weeks)[j];
    assert a in labels by {
      assert i < |labels|;
    }
    MonthLabelsCover(prefix, a);
    FindIndexAppend(prefix, [last], InMonth(a));
    assert FindIndex(prefix, InMonth(a)) != -1 by {
      var x :| x in prefix && x.monthLabel == a;
      var k :| 0 <= k < |prefix| && prefix[k] == x;
      assert InMonth(a)(prefix[k]);
    }
    assert FindIndex(weeks, InMonth(a)) == FindIndex(prefix, InMonth(a));
    if j < |labels| {
      MonthLabelsInFirstAppearanceOrder(prefix, i, j);
      FindIndexAppend(prefix, [last], InMonth(b));
    } else {
      assert b == last.monthLabel && b !in labels;
      MonthLabelsCover(prefix, b);
      assert FindIndex(weeks, InMonth(b)) == n;
    }
  }

  /** Adding a week adds its month's label at the end, unless the month has been seen. */
  lemma MonthLabelsSnoc(weeks: seq<CalendarWeek>, w: CalendarWeek)
    ensures MonthLabels(weeks + [w]) ==
      if w.monthLabel in MonthLabels(weeks) then MonthLabels(weeks) else MonthLabels(weeks) + [w.monthLabel]
  {
    assert (weeks + [w])[..|weeks|] == weeks;
  }

  /** The week groups of a concatenation are the concatenation of the week groups. */
  lemma WeekGroupsAppend(a: seq<CalendarWeek>, b: seq<CalendarWeek>)
    ensures WeekGroups(a + b) == WeekGroups(a) + WeekGroups(b)
  {
  }

  /** What a month's group holds once one more week has been added. */
  lemma MonthChildrenSnoc(weeks: seq<CalendarWeek>, w: CalendarWeek, month: string)
    ensures WeekGroups(Filter(weeks + [w], InMonth(month))) ==
      WeekGroups(Filter(weeks, InMonth(month))) + (if w.monthLabel == month then [WeekGroupOf(w)] else [])
  {
    var keep := InMonth(month);
    FilterAppend(weeks, [w], keep);
    assert [w][1..] == [];
    assert keep(w) <==> w.monthLabel == month;
    var tail := Filter([w], keep);
    assert tail == if w.monthLabel == month then [w] else [];
    WeekGroupsAppend(Filter(weeks, keep), tail);
    assert WeekGroups(tail) == if w.monthLabel == month then [WeekGroupOf(w)] else [];
  }

  /** The group at index `i`: the `i`-th month label with the groups of that month's weeks. */
  lemma MonthGroupsAt(weeks: seq<CalendarWeek>, i: nat)
    requires i < |MonthLabels(weeks)|
    ensures MonthGroups(weeks)[i] == MonthGroup(MonthLabels(weeks)[i], WeekGroups(Filter(weeks, InMonth(MonthLabels(weeks)[i]))))
  {
  }

  /** Adding a week leaves the group of every other month already seen as it was. */
  lemma MonthGroupSnocOther(weeks: seq<CalendarWeek>, w: CalendarWeek, i: nat)
    requires i < |MonthLabels(weeks)| && MonthLabels(weeks)[i] != w.monthLabel
    ensures i < |MonthGroups(weeks + [w])| && MonthGroups(weeks + [w])[i] == MonthGroups(weeks)[i]
  {
    var month := MonthLabels(weeks)[i];
    MonthLabelsSnoc(weeks, w);
    assert MonthLabels(weeks + [w])[i] == month;
    MonthGroupsAt(weeks, i);
    MonthGroupsAt(weeks + [w], i);
    MonthChildrenSnoc(weeks, w, month);
  }

  /** Adding a week of a month already seen appends the week's group to that month's group. */
  lemma MonthGroupSnocOwn(weeks: seq<CalendarWeek>, w: CalendarWeek, g: nat)
    requires g < |MonthLabels(weeks)| && MonthLabels(weeks)[g] == w.monthLabel
    ensures g < |MonthGroups(weeks + [w])|
    ensures MonthGroups(weeks + [w])[g] == MonthGroups(weeks)[g].(children := MonthGroups(weeks)[g].children + [WeekGroupOf(w)])
  {
    MonthLabelsSnoc(weeks, w);
    assert MonthLabels(weeks + [w])[g] == w.monthLabel;
    MonthGroupsAt(weeks, g);
    MonthGroupsAt(weeks + [w], g);
    MonthChildrenSnoc(weeks, w, w.monthLabel);
  }

  /** Adding a week of a month not yet seen puts a group holding only that week last. */
  lemma MonthGroupSnocFirst(weeks: seq<CalendarWeek>, w: CalendarWeek)
    requires w.monthLabel !in MonthLabels(weeks)
    ensures |MonthGroups(weeks + [w])| == |MonthGroups(weeks)| + 1
    ensures MonthGroups(weeks + [w])[|MonthGroups(weeks)|] == MonthGroup(w.monthLabel, [WeekGroupOf(w)])
  {
    var n := |MonthLabels(weeks)|;
    MonthLabelsSnoc(weeks, w);
    assert MonthLabels(weeks + [w])[n] == w.monthLabel;
    MonthLabelsCover(weeks, w.monthLabel);
    NoWeekOfMonth(weeks, w.monthLabel);
    MonthGroupsAt(weeks + [w], n);
    MonthChildrenSnoc(weeks, w, w.monthLabel);
  }

  /** Adding a week of a month already seen appends its group to that month's group. */
  lemma MonthGroupsSnocSeen(weeks: seq<CalendarWeek>, w: CalendarWeek, g: nat)
    requires g < |MonthLabels(weeks)| && MonthLabels(weeks)[g] == w.monthLabel
    ensures MonthGroups(weeks + [w]) ==
      MonthGroups(weeks)[g := MonthGroups(weeks)[g].(children := MonthGroups(weeks)[g].children + [WeekGroupOf(w)])]
  {
    var acc := MonthGroups(weeks);
    var labels := MonthLabels(weeks);
    var r := MonthGroups(weeks + [w]);
    var expected := acc[g := acc[g].(children := acc[g].children + [WeekGroupOf(w)])];
    MonthLabelsSnoc(weeks, w);
    assert w.monthLabel in labels;
    assert |r| == |expected|;
    MonthLabelsDistinct(weeks);
    forall i | 0 <= i < |r| ensures r[i] == expected[i] {
      if i == g {
        MonthGroupSnocOwn(weeks, w, g);
      } else {
        assert labels[i] != labels[g];
        MonthGroupSnocOther(weeks, w, i);
      }
    }
    assert r == expected;
  }

  /** A month no week carries has no weeks. */
  lemma NoWeekOfMonth(weeks: seq<CalendarWeek>, month: string)
    requires forall w :: w in weeks ==> w.monthLabel != month
    ensures Filter(weeks, InMonth(month)) == []
  {
  }

  /** Adding a week of a new month opens a group for that month at the end. */
  lemma MonthGroupsSnocNew(weeks: seq<CalendarWeek>, w: CalendarWeek)
    requires w.monthLabel !in MonthLabels(weeks)
    ensures MonthGroups(weeks + [w]) == MonthGroups(weeks) + [MonthGroup(w.monthLabel, [WeekGroupOf(w)])]
  {
    var acc := MonthGroups(weeks);
    var r := MonthGroups(weeks + [w]);
    var expected := acc + [MonthGroup(w.monthLabel, [WeekGroupOf(w)])];
    MonthGroupSnocFirst(weeks, w);
    assert |r| == |expected| && r[|acc|] == expected[|acc|];
    forall i | 0 <= i < |acc| ensures r[i] == expected[i] {
      MonthGroupSnocOther(weeks, w, i);
    }
    assert r == expected;
  }

  /**
   * The month-group `reduce`: walk the calendar, find the month's group by
   * header and append the week's group to it, or open a group for a month
   * not yet seen.
   */
  method BuildMonthGroups(weeks: seq<CalendarWeek>) returns (acc: seq<MonthGroup>)
    ensures acc == MonthGroups(weeks)
  {
    acc := [];
    var i := 0;
    while i < |weeks|
      invariant 0 <= i <= |weeks|
      invariant acc == MonthGroups(weeks[..i])
    {
      var week := weeks[i];
      ghost var seen := weeks[..i];
      assert weeks[..i + 1] == seen + [week];
      var g := FindIndex(acc, HeaderIs(week.monthLabel));
      var child := WeekGroup(week.weekLabel, WeekColumns(week.week));
      assert child == WeekGroupOf(week);
      if g != -1 {
        assert HeaderIs(week.monthLabel)(acc[g]);
        MonthGroupsSnocSeen(seen, week, g);
        acc := acc[g := acc[g].(children := acc[g].children + [child])];
      } else {
        forall k | 0 <= k < |acc| ensures MonthLabels(seen)[k] != week.monthLabel {
          assert !HeaderIs(week.monthLabel)(acc[k]);
        }
        MonthGroupsSnocNew(seen, week);
        acc := acc + [MonthGroup(week.monthLabel, [child])];
      }
      i := i + 1;
    }
    assert weeks[..i] == weeks;
  }

  /**
   * Every week of the calendar sits in the group of its own month, and
   * every week group of a month belongs to a week of that month.
   */
  lemma WeeksInTheirMonth(weeks: seq<CalendarWeek>, w: CalendarWeek)
    ensures w in weeks ==>
      exists i :: 0 <= i < |MonthGroups(weeks)| && MonthGroups(weeks)[i].headerName == w.monthLabel
        && WeekGroupOf(w) in MonthGroups(weeks)[i].children
    ensures forall i :: 0 <= i < |MonthGroups(weeks)| && WeekGroupOf(w) in MonthGroups(weeks)[i].children ==>
      exists x :: x in weeks && x.monthLabel == MonthGroups(weeks)[i].headerName && WeekGroupOf(x) == WeekGroupOf(w)
  {
    var r := MonthGroups(weeks);
    var labels := MonthLabels(weeks);
    if w in weeks {
      MonthLabelsCover(weeks, w.monthLabel);
      var i :| 0 <= i < |labels| && labels[i] == w.monthLabel;
      var f := Filter(weeks, InMonth(labels[i]));
      var k :| 0 <= k < |weeks| && weeks[k] == w;
      assert w in f;
      var m :| 0 <= m < |f| && f[m] == w;
      assert r[i].children[m] == WeekGroupOf(w);
    }
    forall i | 0 <= i < |r| && WeekGroupOf(w) in r[i].children
      ensures exists x :: x in weeks && x.monthLabel == r[i].headerName && WeekGroupOf(x) == WeekGroupOf(w)
    {
      var f := Filter(weeks, InMonth(labels[i]));
      var m :| 0 <= m < |r[i].children| && r[i].children[m] == WeekGroupOf(w);
      assert f[m] in weeks && InMonth(labels[i])(f[m]);
    }
  }

  /**
   * Conversely, every calendar week's units column appears in the layout,
   * under the week's own label in its month's group, and is editable.
   */
  lemma UnitsColumnsAreEditable(weeks: seq<CalendarWeek>, w: CalendarWeek)
    requires w in weeks
    ensures exists i, k ::
      (0 <= i < |MonthGroups(weeks)| && 0 <= k < |MonthGroups(weeks)[i].children|
       && MonthGroups(weeks)[i].headerName == w.monthLabel
       && MonthGroups(weeks)[i].children[k].headerName == w.weekLabel
       && |MonthGroups(weeks)[i].children[k].children| > 0
       && MonthGroups(weeks)[i].children[k].children[0].editable
       && MonthGroups(weeks)[i].children[k].children[0].field == ColumnId(w.week, SalesUnits))
  {
    WeeksInTheirMonth(weeks, w);
    var r := MonthGroups(weeks);
    var i :| 0 <= i < |r| && r[i].headerName == w.monthLabel && WeekGroupOf(w) in r[i].children;
    var k :| 0 <= k < |r[i].children| && r[i].children[k] == WeekGroupOf(w);
    var cols := WeekColumns(w.week);
    assert r[i].children[k].children == cols;
  }

  /**
   * Every editable column of the layout is the units column of a calendar
   * week, so every edit the grid allows is one the routing dispatches.
   */
  lemma EditableColumnsAreUnits(weeks: seq<CalendarWeek>, i: nat, k: nat, c: nat)
    requires i < |MonthGroups(weeks)| && k < |MonthGroups(weeks)[i].children| && c < |MonthGroups(weeks)[i].children[k].children|
    requires MonthGroups(weeks)[i].children[k].children[c].editable
    ensures exists w :: w in weeks && MonthGroups(weeks)[i].children[k].children[c].field == ColumnId(w.week, SalesUnits)
  {
    var labels := MonthLabels(weeks);
    var f := Filter(weeks, InMonth(labels[i]));
    assert f[k] in weeks;
  }
}
