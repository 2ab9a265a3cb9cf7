/**
 * The SKUs grid: the saved SKUs of the slice followed by the page's draft
 * SKUs, with the add and delete buttons, one setter shared by the three
 * editable columns (name, price, cost) that saves a draft once it has a
 * name, the one-time seeding of three sample SKUs, and the width classes
 * the layout adapts to.
 */
module SkusPage {
  import opened Seqs
  import opened Text
  import opened SkusSlice
  import opened DraftRows

  /** The identity of a draft SKU. */
  function TempSkuId(t: TempSku): string
  {
    t.tempId
  }

  /** The grid's two lists: saved SKUs and draft SKUs. */
  type SkuGrid = Grid<PermanentSku, TempSku>

  /** A row of the SKUs grid. */
  type SkuRow = GridRow<PermanentSku, TempSku>

  /** An edited cell: the column (`sku`, `price` or `cost`) and the value entered. */
  datatype SkuEdit = SetName(sku: string) | SetPrice(price: real) | SetCost(cost: real)

  /** `data[field] = newValue` on a saved SKU. */
  function EditedSku(p: PermanentSku, e: SkuEdit): PermanentSku
  {
    match e
    case SetName(v) => p.(sku := v)
    case SetPrice(v) => p.(price := v)
    case SetCost(v) => p.(cost := v)
  }

  /** `data[field] = newValue` on a draft SKU. */
  function EditedDraft(t: TempSku, e: SkuEdit): TempSku
  {
    match e
    case SetName(v) => t.(sku := v)
    case SetPrice(v) => t.(price := v)
    case SetCost(v) => t.(cost := v)
  }

  /** The draft a click on the add button creates: a fresh temporary id, no name, price and cost 0. */
  function NewTempSku(tempId: string): TempSku
  {
    TempSku(tempId, "", 0.0, 0.0)
  }

  /** The grid after `handleAddSKU`. */
  function AddSkuRow(g: SkuGrid, tempId: string): SkuGrid
  {
    AddDraft(g, NewTempSku(tempId))
  }

  /** The grid after `handleDelete(row)`. */
  function DeleteSkuRow(g: SkuGrid, row: SkuRow): SkuGrid
  {
    DeleteRow(g, SkuId, TempSkuId, row)
  }

  /**
   * The `valueSetter`: a saved SKU is updated with the edited field; a draft
   * whose name is edited to something not blank after trimming is saved
   * under `freshId` with its price and cost; any other edit of a draft
   * writes it back into the drafts.
   */
  function EditSku(g: SkuGrid, row: SkuRow, e: SkuEdit, freshId: string): SkuGrid
  {
    match row
    case Saved(p) => EditSaved(g, SkuId, EditedSku(p, e))
    case Draft(t) =>
      var data := EditedDraft(t, e);
      if e.SetName? && Trim(data.sku) != "" then
        Promote(g, TempSkuId, data, PermanentSku(freshId, data.sku, data.price, data.cost))
      else
        EditDraft(g, TempSkuId, data)
  }

  /**
   * A draft is saved exactly when its name is edited to something other
   * than whitespace; it then leaves the drafts, the new SKU with the fresh
   * id, the new name and the draft's price and cost is appended to the
   * saved SKUs, and the grid keeps its number of rows.
   */
  lemma DraftSavedIffNamed(g: SkuGrid, t: TempSku, e: SkuEdit, freshId: string)
    requires WellFormed(g, SkuId, TempSkuId) && t.tempId in Keys(g.drafts, TempSkuId)
    requires Fresh(g, SkuId, TempSkuId, freshId)
    ensures EditSku(g, Draft(t), e, freshId).saved != g.saved <==> e.SetName? && !IsBlank(e.sku)
    ensures e.SetName? && !IsBlank(e.sku) ==>
      && EditSku(g, Draft(t), e, freshId).saved == g.saved + [PermanentSku(freshId, e.sku, t.price, t.cost)]
      && (forall d :: d in EditSku(g, Draft(t), e, freshId).drafts ==> d.tempId != t.tempId)
      && |AllRows(EditSku(g, Draft(t), e, freshId))| == |AllRows(g)|
  {
    if e.SetName? {
      TrimEmptyIffBlank(e.sku);
      var data := EditedDraft(t, e);
      if !IsBlank(e.sku) {
        PromoteMovesRow(g, SkuId, TempSkuId, data, PermanentSku(freshId, data.sku, data.price, data.cost));
        assert |EditSku(g, Draft(t), e, freshId).saved| == |g.saved| + 1;
      }
    }
  }

  /**
   * An edit that leaves a draft a draft (any price or cost edit, or a blank
   * name) leaves the saved SKUs alone and replaces only the draft with that
   * temporary id by the edited one.
   */
  lemma UnsavedEditReplacesDraft(g: SkuGrid, t: TempSku, e: SkuEdit, freshId: string)
    requires !e.SetName? || IsBlank(e.sku)
    ensures EditSku(g, Draft(t), e, freshId).saved == g.saved
    ensures |EditSku(g, Draft(t), e, freshId).drafts| == |g.drafts|
    ensures forall i :: 0 <= i < |g.drafts| ==>
      EditSku(g, Draft(t), e, freshId).drafts[i] == (if g.drafts[i].tempId == t.tempId then EditedDraft(t, e) else g.drafts[i])
  {
    if e.SetName? {
      TrimEmptyIffBlank(e.sku);
    }
    var data := EditedDraft(t, e);
    forall i | 0 <= i < |g.drafts| ensures HasKey(TempSkuId, data.tempId)(g.drafts[i]) <==> g.drafts[i].tempId == t.tempId {
      assert HasKey(TempSkuId, data.tempId)(g.drafts[i]) == (TempSkuId(g.drafts[i]) == data.tempId);
    }
  }

  /**
   * Editing a saved row replaces the edited field of that SKU and nothing
   * else: the other SKUs and the drafts are untouched.
   */
  lemma SavedEditChangesOneField(g: SkuGrid, k: nat, e: SkuEdit, freshId: string)
    requires UniqueKeys(g.saved, SkuId) && k < |g.saved|
    ensures EditSku(g, Saved(g.saved[k]), e, freshId) == g.(saved := g.saved[k := EditedSku(g.saved[k], e)])
    ensures EditedSku(g.saved[k], e).id == g.saved[k].id
    ensures e.SetName? ==> EditedSku(g.saved[k], e) == g.saved[k].(sku := e.sku)
    ensures e.SetPrice? ==> EditedSku(g.saved[k], e) == g.saved[k].(price := e.price)
    ensures e.SetCost? ==> EditedSku(g.saved[k], e) == g.saved[k].(cost := e.cost)
  {
    var s := g.saved[k];
    assert forall j :: 0 <= j < k ==> SkuId(g.saved[j]) != SkuId(s);
  }

  /** Every transition of the page keeps the grid well formed, given that the ids it mints are fresh. */
  lemma TransitionsKeepWellFormed(g: SkuGrid, row: SkuRow, e: SkuEdit, freshId: string)
    requires WellFormed(g, SkuId, TempSkuId) && Fresh(g, SkuId, TempSkuId, freshId)
    ensures WellFormed(AddSkuRow(g, freshId), SkuId, TempSkuId)
    ensures WellFormed(DeleteSkuRow(g, row), SkuId, TempSkuId)
    ensures WellFormed(EditSku(g, row, e, freshId), SkuId, TempSkuId)
  {
    AddDraftKeepsWellFormed(g, SkuId, TempSkuId, NewTempSku(freshId));
    DeleteRowRemovesIt(g, SkuId, TempSkuId, row);
    match row
    case Saved(p) =>
      EditSavedKeepsWellFormed(g, SkuId, TempSkuId, EditedSku(p, e));
    case Draft(t) =>
      var data := EditedDraft(t, e);
      PromoteKeepsWellFormed(g, SkuId, TempSkuId, data, PermanentSku(freshId, data.sku, data.price, data.cost));
      EditDraftKeepsWellFormed(g, SkuId, TempSkuId, data);
  }

  /** The three sample SKUs, given the three ids minted for them. */
  function SampleSkus(ids: seq<string>): (skus: seq<PermanentSku>)
    requires |ids| == 3
    ensures |skus| == 3 && forall i :: 0 <= i < 3 ==> skus[i].id == ids[i]
  {
    [PermanentSku(ids[0], "Cotton Polo Shirt", 139.99, 10.78),
     PermanentSku(ids[1], "Tassel Fringe Handbag", 134.99, 20.79),
     PermanentSku(ids[2], "Minimalist Leather Watch", 49.99, 49.89)]
  }

  /**
   * The seeding effect: without the initialized flag and with no SKUs the
   * sample SKUs are set and the flag raised; otherwise nothing changes.
   */
  function Seeded(initialized: bool, skus: seq<PermanentSku>, ids: seq<string>): (bool, seq<PermanentSku>)
    requires |ids| == 3
  {
    if !initialized && |skus| == 0 then (true, SampleSkus(ids)) else (initialized, skus)
  }

  /** Seeding happens at most once, never replaces a non-empty list, and every sample SKU sells above cost. */
  lemma SeedingHappensOnce(initialized: bool, skus: seq<PermanentSku>, ids: seq<string>, again: seq<string>)
    requires |ids| == 3 && |again| == 3
    ensures Seeded(Seeded(initialized, skus, ids).0, Seeded(initialized, skus, ids).1, again) == Seeded(initialized, skus, ids)
    ensures |skus| > 0 ==> Seeded(initialized, skus, ids).1 == skus
    ensures initialized ==> Seeded(initialized, skus, ids) == (initialized, skus)
    ensures Seeded(initialized, skus, ids).1 != skus ==> !initialized && |skus| == 0 && Seeded(initialized, skus, ids).0
    ensures forall i :: 0 <= i < 3 ==> SampleSkus(ids)[i].price > SampleSkus(ids)[i].cost
  {
  }

  /** The width classes the layout switches between. */
  datatype ScreenSize = Sm | Md | Lg

  /** `getResponsiveSize`: below 640 pixels small, below 768 medium, otherwise large. */
  function GetResponsiveSize(windowWidth: int): (size: ScreenSize)
    ensures size == Sm <==> windowWidth < 640
    ensures size == Md <==> 640 <= windowWidth < 768
    ensures size == Lg <==> 768 <= windowWidth
  {
    if windowWidth < 640 then Sm
    else if windowWidth < 768 then Md
    else Lg
  }

  /** The rank of a width class, small to large. */
  function SizeRank(size: ScreenSize): nat
  {
    match size
    case Sm => 0
    case Md => 1
    case Lg => 2
  }

  /** A wider window never gets a smaller class. */
  lemma ResponsiveSizeMonotone(narrow: int, wide: int)
    requires narrow <= wide
    ensures SizeRank(GetResponsiveSize(narrow)) <= SizeRank(GetResponsiveSize(wide))
  {
  }

  /** The SKUs page: the SKUs slice it dispatches to and its own list of draft rows. */
  class SkusPageState {
    const slice: SkusState
    var tempData: seq<TempSku>

    /** A freshly mounted page with the drafts it restored. */
    constructor (slice: SkusState, restored: seq<TempSku>)
      ensures this.slice == slice && tempData == restored
    {
      this.slice := slice;
      tempData := restored;
    }

    /** The grid the page shows. */
    function View(): SkuGrid
      reads this, slice
    {
      Grid(slice.skus, tempData)
    }

    /** `handleAddSKU`, with the id `uuidv4` would mint. */
    method HandleAddSku(tempId: string)
      modifies this
      ensures View() == AddSkuRow(old(View()), tempId)
    {
      tempData := tempData + [NewTempSku(tempId)];
    }

    /** `handleDelete`: saved rows are deleted through the slice, drafts filtered out here. */
    method HandleDelete(row: SkuRow)
      modifies this, slice
      ensures View() == DeleteSkuRow(old(View()), row)
    {
      match row
      case Saved(p) =>
        slice.DeleteSku(p.id);
      case Draft(t) =>
        tempData := Filter(tempData, LacksKey(TempSkuId, t.tempId));
    }

    /** The `valueSetter` of the three editable columns, with the id `uuidv4` would mint. */
    method ValueSetter(row: SkuRow, e: SkuEdit, freshId: string)
      modifies this, slice
      ensures View() == EditSku(old(View()), row, e, freshId)
    {
      match row
      case Saved(p) =>
        slice.UpdateSku(EditedSku(p, e));
      case Draft(t) =>
        var data := EditedDraft(t, e);
        if e.SetName? && Trim(data.sku) != "" {
          slice.AddSku(PermanentSku(freshId, data.sku, data.price, data.cost));
          tempData := Filter(tempData, LacksKey(TempSkuId, data.tempId));
        } else {
          tempData := ReplaceWhere(tempData, HasKey(TempSkuId, data.tempId), data);
        }
    }

    /**
     * The seeding effect, given the stored flag and the three ids `uuidv4`
     * would mint; returns the flag as it is stored afterwards.
     */
    method SeedSkus(skusInitialized: bool, ids: seq<string>) returns (initialized: bool)
      requires |ids| == 3
      modifies slice
      ensures (initialized, slice.skus) == Seeded(skusInitialized, old(slice.skus), ids)
    {
      initialized := skusInitialized;
      if !skusInitialized && |slice.skus| == 0 {
        slice.SetSkus(SampleSkus(ids));
        initialized := true;
      }
    }
  }
}
