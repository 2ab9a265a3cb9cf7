/**
 * The planning reducer: a list of planning items, one per (store, SKU) pair
 * that has been edited, each holding a sparse map from week id to that
 * week's sales units and the dollars and margin derived from them.
 */
module PlanningSlice {
  import opened Seqs

  /** One week's forecast input and the three metrics derived from it. */
  datatype WeekData = WeekData(
    weekId: string,
    salesUnits: real,
    salesDollars: real,
    gmDollars: real,
    gmPercent: real)

  /** The sparse record of one (store, SKU) pair. */
  datatype PlanningItem = PlanningItem(
    id: string,
    storeId: string,
    skuId: string,
    weeksData: map<string, WeekData>)

  /** The payload of the `updatePlanningItem` action. */
  datatype UpdatePayload = UpdatePayload(
    storeId: string,
    skuId: string,
    weekId: string,
    salesUnits: real,
    price: real,
    cost: real)

  /** The key a planning item is looked up by. */
  function PairOf(item: PlanningItem): (string, string)
  {
    (item.storeId, item.skuId)
  }

  /** The id a newly created item gets: `${storeId}-${skuId}`. */
  function ItemId(storeId: string, skuId: string): string
  {
    storeId + "-" + skuId
  }

  /** The margin relation every stored week satisfies. */
  predicate MarginConsistent(w: WeekData)
  {
    w.gmPercent == if w.salesDollars > 0.0 then w.gmDollars / w.salesDollars * 100.0 else 0.0
  }

  /**
   * The week record written by an update: sales dollars are units times
   * price, margin dollars are sales dollars less units times cost, and the
   * margin percent is taken against sales dollars, forced to 0 whenever
   * sales dollars are not positive.
   */
  function ComputeWeekData(p: UpdatePayload): (w: WeekData)
    ensures w.weekId == p.weekId && w.salesUnits == p.salesUnits
    ensures w.salesDollars == p.salesUnits * p.price
    ensures w.gmDollars == p.salesUnits * (p.price - p.cost)
    ensures w.salesDollars > 0.0 ==> p.price != 0.0 && w.gmPercent == (p.price - p.cost) / p.price * 100.0
    ensures w.salesDollars <= 0.0 ==> w.gmPercent == 0.0
    ensures MarginConsistent(w)
  {
    var salesDollars := p.salesUnits * p.price;
    var gmDollars := salesDollars - p.salesUnits * p.cost;
    var gmPercent := if salesDollars > 0.0 then gmDollars / salesDollars * 100.0 else 0.0;
    if salesDollars > 0.0 then
      MarginIsPriceOnly(p.salesUnits, p.price, p.cost);
      WeekData(p.weekId, p.salesUnits, salesDollars, gmDollars, gmPercent)
    else
      WeekData(p.weekId, p.salesUnits, salesDollars, gmDollars, gmPercent)
  }

  /**
   * With positive sales dollars the margin percent depends on price and
   * cost only, not on the number of units.
   */
  lemma MarginIsPriceOnly(units: real, price: real, cost: real)
    requires units * price > 0.0
    ensures price != 0.0
    ensures (units * price - units * cost) / (units * price) * 100.0 == (price - cost) / price * 100.0
  {
    assert units != 0.0;
    calc {
      (units * price - units * cost) / (units * price);
      (units * (price - cost)) / (units * price);
      (price - cost) / price;
    }
  }

  /**
   * Two worked weeks: 5 units at price 10 and cost 4 give 50 sales dollars,
   * 30 margin dollars and 60 percent; 3 units at price 0 and cost 4 give a
   * margin of -12 dollars and, with no sales dollars, 0 percent.
   */
  lemma WorkedWeeks()
    ensures ComputeWeekData(UpdatePayload("s1", "k1", "W01", 5.0, 10.0, 4.0)) == WeekData("W01", 5.0, 50.0, 30.0, 60.0)
    ensures ComputeWeekData(UpdatePayload("s1", "k1", "W01", 3.0, 0.0, 4.0)) == WeekData("W01", 3.0, 0.0, -12.0, 0.0)
  {
  }

  /** The item created for a pair that has no item yet. */
  function NewItem(storeId: string, skuId: string): PlanningItem
  {
    PlanningItem(ItemId(storeId, skuId), storeId, skuId, map[])
  }

  /** `planningItem.weeksData[weekId] = {...}`: overwrite one week of an item. */
  function WithWeek(item: PlanningItem, p: UpdatePayload): PlanningItem
  {
    item.(weeksData := item.weeksData[p.weekId := ComputeWeekData(p)])
  }

  /** The lookup `updatePlanningItem` does: the first item of the pair. */
  function FindPair(items: seq<PlanningItem>, storeId: string, skuId: string): int
  {
    FindIndex(items, HasKey(PairOf, (storeId, skuId)))
  }

  /** The list after `updatePlanningItem(p)`. */
  function Upserted(items: seq<PlanningItem>, p: UpdatePayload): seq<PlanningItem>
  {
    var k := FindPair(items, p.storeId, p.skuId);
    if k == -1 then items + [WithWeek(NewItem(p.storeId, p.skuId), p)]
    else items[k := WithWeek(items[k], p)]
  }

  /** The list after `deletePlanningItem(storeId, skuId)`. */
  function DeletedPair(items: seq<PlanningItem>, storeId: string, skuId: string): seq<PlanningItem>
  {
    RemoveByKey(items, PairOf, (storeId, skuId))
  }

  /**
   * Without an item for the pair, the update appends exactly one item, with
   * id `storeId-skuId` and the single computed week.
   */
  lemma UpsertAppendsNewPair(items: seq<PlanningItem>, p: UpdatePayload)
    requires forall i :: 0 <= i < |items| ==> PairOf(items[i]) != (p.storeId, p.skuId)
    ensures Upserted(items, p)
      == items + [PlanningItem(ItemId(p.storeId, p.skuId), p.storeId, p.skuId, map[p.weekId := ComputeWeekData(p)])]
  {
  }

  /**
   * With an item for the pair, the update keeps the length, touches only the
   * first item of the pair, keeps its identity and other weeks, and
   * overwrites the one week.
   */
  lemma UpsertTouchesOneWeek(items: seq<PlanningItem>, p: UpdatePayload, k: nat)
    requires k < |items| && PairOf(items[k]) == (p.storeId, p.skuId)
    requires forall j :: 0 <= j < k ==> PairOf(items[j]) != (p.storeId, p.skuId)
    ensures |Upserted(items, p)| == |items|
    ensures forall j :: 0 <= j < |items| && j != k ==> Upserted(items, p)[j] == items[j]
    ensures Upserted(items, p)[k].id == items[k].id && PairOf(Upserted(items, p)[k]) == PairOf(items[k])
    ensures Upserted(items, p)[k].weeksData == items[k].weeksData[p.weekId := ComputeWeekData(p)]
  {
    assert FindPair(items, p.storeId, p.skuId) == k;
  }

  /** After an update the pair's item holds the freshly computed week. */
  lemma UpsertWritesWeek(items: seq<PlanningItem>, p: UpdatePayload)
    ensures var r := Upserted(items, p);
            var k := FindPair(r, p.storeId, p.skuId);
            0 <= k && p.weekId in r[k].weeksData && r[k].weeksData[p.weekId] == ComputeWeekData(p)
  {
    var r := Upserted(items, p);
    var k := FindPair(items, p.storeId, p.skuId);
    if k == -1 {
      assert PairOf(r[|items|]) == (p.storeId, p.skuId);
      assert forall j :: 0 <= j < |items| ==> r[j] == items[j];
      assert FindPair(r, p.storeId, p.skuId) == |items|;
    } else {
      assert forall j :: 0 <= j < k ==> r[j] == items[j];
      assert PairOf(r[k]) == PairOf(items[k]);
      assert FindPair(r, p.storeId, p.skuId) == k;
    }
  }

  /** Applying the same update twice gives the same list as applying it once. */
  lemma UpsertIdempotent(items: seq<PlanningItem>, p: UpdatePayload)
    ensures Upserted(Upserted(items, p), p) == Upserted(items, p)
  {
    var r := Upserted(items, p);
    UpsertWritesWeek(items, p);
    var k := FindPair(r, p.storeId, p.skuId);
    assert r[k].weeksData[p.weekId := ComputeWeekData(p)] == r[k].weeksData;
    assert WithWeek(r[k], p) == r[k];
    assert r[k := r[k]] == r;
  }

  /** The (storeId, skuId) pairs stay unique under an update. */
  lemma UpsertKeepsPairsUnique(items: seq<PlanningItem>, p: UpdatePayload)
    requires UniqueKeys(items, PairOf)
    ensures UniqueKeys(Upserted(items, p), PairOf)
  {
    var r := Upserted(items, p);
    var k := FindPair(items, p.storeId, p.skuId);
    if k == -1 {
      forall i | 0 <= i < |items| ensures PairOf(r[i]) != PairOf(r[|items|]) {
      }
    } else {
      assert forall i :: 0 <= i < |items| ==> PairOf(r[i]) == PairOf(items[i]);
    }
  }

  /** Every week of every item is filed under its own week id and has consistent margins. */
  ghost predicate WeeksWellFiled(items: seq<PlanningItem>)
  {
    forall i, w :: 0 <= i < |items| && w in items[i].weeksData ==>
      items[i].weeksData[w].weekId == w && MarginConsistent(items[i].weeksData[w])
  }

  /** The invariant the reducer keeps: unique pairs, well-filed weeks. */
  ghost predicate Valid(items: seq<PlanningItem>)
  {
    UniqueKeys(items, PairOf) && WeeksWellFiled(items)
  }

  /** Updates keep the invariant. */
  lemma UpsertKeepsValid(items: seq<PlanningItem>, p: UpdatePayload)
    requires Valid(items)
    ensures Valid(Upserted(items, p))
  {
    UpsertKeepsPairsUnique(items, p);
    var r := Upserted(items, p);
    forall i, w | 0 <= i < |r| && w in r[i].weeksData
      ensures r[i].weeksData[w].weekId == w && MarginConsistent(r[i].weeksData[w])
    {
      if i < |items| && r[i] != items[i] {
        assert r[i] == WithWeek(items[i], p);
      }
    }
  }

  /**
   * Deleting a pair removes every item of that pair, keeps all others in
   * their order, is a no-op for an absent pair and keeps the invariant.
   */
  lemma DeleteKeepsValid(items: seq<PlanningItem>, storeId: string, skuId: string)
    requires Valid(items)
    ensures Valid(DeletedPair(items, storeId, skuId))
  {
    var r := DeletedPair(items, storeId, skuId);
    RemoveByKeyKeepsUniqueKeys(items, PairOf, (storeId, skuId));
    forall i, w | 0 <= i < |r| && w in r[i].weeksData
      ensures r[i].weeksData[w].weekId == w && MarginConsistent(r[i].weeksData[w])
    {
      var j :| 0 <= j < |items| && items[j] == r[i];
    }
  }

  /** The planning slice of the store: `state.planningData`. */
  class PlanningState {
    var planningData: seq<PlanningItem>

    /** The initial state, loaded from storage by the caller. */
    constructor (initial: seq<PlanningItem>)
      ensures planningData == initial
    {
      planningData := initial;
    }

    /** `setPlanningData`: replace the whole list. */
    method SetPlanningData(payload: seq<PlanningItem>)
      modifies this
      ensures planningData == payload
    {
      planningData := payload;
    }

    /** `updatePlanningItem`: find or append the pair's item, then overwrite one week. */
    method UpdatePlanningItem(p: UpdatePayload)
      modifies this
      ensures planningData == Upserted(old(planningData), p)
      ensures Valid(old(planningData)) ==> Valid(planningData)
    {
      ghost var before := planningData;
      var index := FindIndex(planningData, HasKey(PairOf, (p.storeId, p.skuId)));
      if index == -1 {
        planningData := planningData + [PlanningItem(ItemId(p.storeId, p.skuId), p.storeId, p.skuId, map[])];
        index := |planningData| - 1;
      }
      var salesDollars := p.salesUnits * p.price;
      var gmDollars := salesDollars - p.salesUnits * p.cost;
      var gmPercent := if salesDollars > 0.0 then gmDollars / salesDollars * 100.0 else 0.0;
      var item := planningData[index];
      assert WeekData(p.weekId, p.salesUnits, salesDollars, gmDollars, gmPercent) == ComputeWeekData(p);
      planningData := planningData[index := item.(weeksData := item.weeksData[p.weekId :=
        WeekData(p.weekId, p.salesUnits, salesDollars, gmDollars, gmPercent)])];
      assert planningData == Upserted(before, p) by {
        if index == |before| {
          assert planningData == before + [WithWeek(NewItem(p.storeId, p.skuId), p)];
        }
      }
      if Valid(before) {
        UpsertKeepsValid(before, p);
      }
    }

    /** `deletePlanningItem`: drop every item of the pair. */
    method DeletePlanningItem(storeId: string, skuId: string)
      modifies this
      ensures planningData == DeletedPair(old(planningData), storeId, skuId)
      ensures Valid(old(planningData)) ==> Valid(planningData)
    {
      ghost var before := planningData;
      planningData := RemoveByKey(planningData, PairOf, (storeId, skuId));
      if Valid(before) {
        DeleteKeepsValid(before, storeId, skuId);
      }
    }
  }
}
