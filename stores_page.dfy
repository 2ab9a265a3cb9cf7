/**
 * The stores grid: the saved stores of the slice followed by the page's
 * draft stores, with the add and delete buttons, the three editable
 * columns (name, city, state) whose setters save a draft once it has a
 * name, and the one-time seeding of five sample stores.
 */
module StoresPage {
  import opened Seqs
  import opened Text
  import opened StoresSlice
  import opened DraftRows

  /** The identity of a draft store. */
  function TempStoreId(t: TempStore): string
  {
    t.tempId
  }

  /** The grid's two lists: saved stores and draft stores. */
  type StoreGrid = Grid<PermanentStore, TempStore>

  /** A row of the stores grid. */
  type StoreRow = GridRow<PermanentStore, TempStore>

  /** The draft a click on "NEW STORE" adds: a fresh temporary id and empty fields. */
  function NewTempStore(tempId: string): TempStore
  {
    TempStore(tempId, "", "", "")
  }

  /** The grid after `handleAddStore`. */
  function AddStoreRow(g: StoreGrid, tempId: string): StoreGrid
  {
    AddDraft(g, NewTempStore(tempId))
  }

  /** The grid after `handleDelete(row)`. */
  function DeleteStoreRow(g: StoreGrid, row: StoreRow): StoreGrid
  {
    DeleteRow(g, StoreId, TempStoreId, row)
  }

  /**
   * The name column's setter: a saved store is updated with the new name; a
   * draft whose new name is not blank after trimming is saved under
   * `freshId` with its city and state, otherwise it stays a draft with the
   * new name.
   */
  function EditName(g: StoreGrid, row: StoreRow, newValue: string, freshId: string): StoreGrid
  {
    match row
    case Saved(s) => EditSaved(g, StoreId, s.(name := newValue))
    case Draft(t) =>
      var updated := t.(name := newValue);
      if Trim(updated.name) != "" then
        Promote(g, TempStoreId, updated, PermanentStore(freshId, updated.name, updated.city, updated.state))
      else
        EditDraft(g, TempStoreId, updated)
  }

  /** The city column's setter: a draft stays a draft. */
  function EditCity(g: StoreGrid, row: StoreRow, newValue: string): StoreGrid
  {
    match row
    case Saved(s) => EditSaved(g, StoreId, s.(city := newValue))
    case Draft(t) => EditDraft(g, TempStoreId, t.(city := newValue))
  }

  /** The state column's setter: a draft stays a draft. */
  function EditState(g: StoreGrid, row: StoreRow, newValue: string): StoreGrid
  {
    match row
    case Saved(s) => EditSaved(g, StoreId, s.(state := newValue))
    case Draft(t) => EditDraft(g, TempStoreId, t.(state := newValue))
  }

  /**
   * A draft whose name is edited to something other than whitespace is
   * saved: it leaves the drafts, one store with the fresh id, the new name
   * and the draft's city and state is appended to the saved stores, and the
   * grid keeps its number of rows.
   */
  lemma NonBlankNameSavesDraft(g: StoreGrid, t: TempStore, newValue: string, freshId: string)
    requires WellFormed(g, StoreId, TempStoreId) && t.tempId in Keys(g.drafts, TempStoreId)
    requires Fresh(g, StoreId, TempStoreId, freshId)
    requires !IsBlank(newValue)
    ensures EditName(g, Draft(t), newValue, freshId).saved == g.saved + [PermanentStore(freshId, newValue, t.city, t.state)]
    ensures forall d :: d in EditName(g, Draft(t), newValue, freshId).drafts ==> d.tempId != t.tempId
    ensures |AllRows(EditName(g, Draft(t), newValue, freshId))| == |AllRows(g)|
    ensures WellFormed(EditName(g, Draft(t), newValue, freshId), StoreId, TempStoreId)
  {
    TrimEmptyIffBlank(newValue);
    var updated := t.(name := newValue);
    PromoteMovesRow(g, StoreId, TempStoreId, updated, PermanentStore(freshId, newValue, t.city, t.state));
  }

  /**
   * A draft whose name is edited to whitespace stays a draft: the saved
   * stores are untouched and only the draft with that temporary id takes
   * the new name.
   */
  lemma BlankNameKeepsDraft(g: StoreGrid, t: TempStore, newValue: string, freshId: string)
    requires IsBlank(newValue)
    ensures EditName(g, Draft(t), newValue, freshId).saved == g.saved
    ensures |EditName(g, Draft(t), newValue, freshId).drafts| == |g.drafts|
    ensures forall i :: 0 <= i < |g.drafts| ==>
      EditName(g, Draft(t), newValue, freshId).drafts[i] == (if g.drafts[i].tempId == t.tempId then t.(name := newValue) else g.drafts[i])
  {
    TrimEmptyIffBlank(newValue);
    forall i | 0 <= i < |g.drafts| ensures HasKey(TempStoreId, t.tempId)(g.drafts[i]) <==> g.drafts[i].tempId == t.tempId {
      assert HasKey(TempStoreId, t.tempId)(g.drafts[i]) == (TempStoreId(g.drafts[i]) == t.tempId);
    }
  }

  /**
   * Editing the city or the state of a draft never saves it: the saved
   * stores are untouched and only that field of the draft with that
   * temporary id changes.
   */
  lemma AddressEditKeepsDraft(g: StoreGrid, t: TempStore, newValue: string)
    ensures EditCity(g, Draft(t), newValue).saved == g.saved && EditState(g, Draft(t), newValue).saved == g.saved
    ensures |EditCity(g, Draft(t), newValue).drafts| == |g.drafts| && |EditState(g, Draft(t), newValue).drafts| == |g.drafts|
    ensures forall i :: 0 <= i < |g.drafts| ==>
      EditCity(g, Draft(t), newValue).drafts[i] == (if g.drafts[i].tempId == t.tempId then t.(city := newValue) else g.drafts[i])
      && EditState(g, Draft(t), newValue).drafts[i] == (if g.drafts[i].tempId == t.tempId then t.(state := newValue) else g.drafts[i])
  {
    forall i | 0 <= i < |g.drafts| ensures HasKey(TempStoreId, t.tempId)(g.drafts[i]) <==> g.drafts[i].tempId == t.tempId {
      assert HasKey(TempStoreId, t.tempId)(g.drafts[i]) == (TempStoreId(g.drafts[i]) == t.tempId);
    }
  }

  /**
   * Editing any field of a saved row replaces that one field of that store
   * and nothing else: the other stores and the drafts are untouched.
   */
  lemma SavedEditChangesOneField(g: StoreGrid, k: nat, newValue: string, freshId: string)
    requires UniqueKeys(g.saved, StoreId) && k < |g.saved|
    ensures var s := g.saved[k];
      && EditName(g, Saved(s), newValue, freshId) == g.(saved := g.saved[k := s.(name := newValue)])
      && EditCity(g, Saved(s), newValue) == g.(saved := g.saved[k := s.(city := newValue)])
      && EditState(g, Saved(s), newValue) == g.(saved := g.saved[k := s.(state := newValue)])
  {
    var s := g.saved[k];
    assert forall j :: 0 <= j < k ==> StoreId(g.saved[j]) != StoreId(s);
  }

  /**
   * Every transition of the page keeps the grid well formed, given that the
   * ids it mints are fresh.
   */
  lemma TransitionsKeepWellFormed(g: StoreGrid, row: StoreRow, newValue: string, freshId: string)
    requires WellFormed(g, StoreId, TempStoreId) && Fresh(g, StoreId, TempStoreId, freshId)
    ensures WellFormed(AddStoreRow(g, freshId), StoreId, TempStoreId)
    ensures WellFormed(DeleteStoreRow(g, row), StoreId, TempStoreId)
    ensures WellFormed(EditName(g, row, newValue, freshId), StoreId, TempStoreId)
    ensures WellFormed(EditCity(g, row, newValue), StoreId, TempStoreId)
    ensures WellFormed(EditState(g, row, newValue), StoreId, TempStoreId)
  {
    AddDraftKeepsWellFormed(g, StoreId, TempStoreId, NewTempStore(freshId));
    DeleteRowRemovesIt(g, StoreId, TempStoreId, row);
    match row
    case Saved(s) =>
      EditSavedKeepsWellFormed(g, StoreId, TempStoreId, s.(name := newValue));
      EditSavedKeepsWellFormed(g, StoreId, TempStoreId, s.(city := newValue));
      EditSavedKeepsWellFormed(g, StoreId, TempStoreId, s.(state := newValue));
    case Draft(t) =>
      var updated := t.(name := newValue);
      PromoteKeepsWellFormed(g, StoreId, TempStoreId, updated, PermanentStore(freshId, updated.name, updated.city, updated.state));
      EditDraftKeepsWellFormed(g, StoreId, TempStoreId, updated);
      EditDraftKeepsWellFormed(g, StoreId, TempStoreId, t.(city := newValue));
      EditDraftKeepsWellFormed(g, StoreId, TempStoreId, t.(state := newValue));
  }

  /** The five sample stores, given the five ids minted for them. */
  function SampleStores(ids: seq<string>): (stores: seq<PermanentStore>)
    requires |ids| == 5
    ensures |stores| == 5 && forall i :: 0 <= i < 5 ==> stores[i].id == ids[i]
  {
    [PermanentStore(ids[0], "Atlanta Outfitters", "Atlanta", "GA"),
     PermanentStore(ids[1], "Chicago Charm Boutique", "Chicago", "IL"),
     PermanentStore(ids[2], "Houston Harvest Market", "Houston", "TX"),
     PermanentStore(ids[3], "Seattle Skyline Goods", "Seattle", "WA"),
     PermanentStore(ids[4], "Miami Breeze Apparel", "Miami", "FL")]
  }

  /**
   * The seeding effect: without the initialized flag and with no stores,
   * the sample stores are set and the flag raised; otherwise nothing
   * changes. The result is the new flag and the new store list.
   */
  function Seeded(initialized: bool, stores: seq<PermanentStore>, ids: seq<string>): (bool, seq<PermanentStore>)
    requires |ids| == 5
  {
    if !initialized && |stores| == 0 then (true, SampleStores(ids)) else (initialized, stores)
  }

  /**
   * Seeding happens at most once: seeding again, with any ids, after a
   * seeding changes nothing, and a non-empty store list is never replaced.
   */
  lemma SeedingHappensOnce(initialized: bool, stores: seq<PermanentStore>, ids: seq<string>, again: seq<string>)
    requires |ids| == 5 && |again| == 5
    ensures Seeded(Seeded(initialized, stores, ids).0, Seeded(initialized, stores, ids).1, again) == Seeded(initialized, stores, ids)
    ensures |stores| > 0 ==> Seeded(initialized, stores, ids).1 == stores
    ensures Seeded(initialized, stores, ids).1 != stores ==> !initialized && |stores| == 0 && Seeded(initialized, stores, ids).0
    ensures initialized ==> Seeded(initialized, stores, ids) == (initialized, stores)
  {
  }

  /** Seeding under five distinct ids gives a well-formed grid of five saved stores. */
  lemma SeedingIsWellFormed(ids: seq<string>)
    requires |ids| == 5 && forall i, j :: 0 <= i < j < 5 ==> ids[i] != ids[j]
    ensures var g: StoreGrid := Grid(SampleStores(ids), []);
      WellFormed(g, StoreId, TempStoreId) && |AllRows(g)| == 5
  {
    var stores := SampleStores(ids);
    assert forall i :: 0 <= i < 5 ==> StoreId(stores[i]) == ids[i];
  }

  /** The stores page: the stores slice it dispatches to and its own list of draft rows. */
  class StoresPageState {
    const slice: StoresState
    var tempData: seq<TempStore>

    /** A freshly mounted page has no drafts. */
    constructor (slice: StoresState)
      ensures this.slice == slice && tempData == []
    {
      this.slice := slice;
      tempData := [];
    }

    /** The grid the page shows. */
    function View(): StoreGrid
      reads this, slice
    {
      Grid(slice.stores, tempData)
    }

    /** `handleAddStore`, with the id `uuidv4` would mint. */
    method HandleAddStore(tempId: string)
      modifies this
      ensures View() == AddStoreRow(old(View()), tempId)
    {
      tempData := tempData + [NewTempStore(tempId)];
    }

    /** `handleDelete`: saved rows are deleted through the slice, drafts filtered out here. */
    method HandleDelete(row: StoreRow)
      modifies this, slice
      ensures View() == DeleteStoreRow(old(View()), row)
    {
      match row
      case Saved(s) =>
        slice.DeleteStore(s.id);
      case Draft(t) =>
        tempData := Filter(tempData, LacksKey(TempStoreId, t.tempId));
    }

    /** Promote the edited draft, or write it back into the drafts. */
    method SaveOrKeepDraft(updated: TempStore, saveIt: bool, freshId: string)
      modifies this, slice
      ensures View() == if saveIt then Promote(old(View()), TempStoreId, updated, PermanentStore(freshId, updated.name, updated.city, updated.state))
                        else EditDraft(old(View()), TempStoreId, updated)
    {
      if saveIt {
        slice.AddStore(PermanentStore(freshId, updated.name, updated.city, updated.state));
        tempData := Filter(tempData, LacksKey(TempStoreId, updated.tempId));
      } else {
        tempData := ReplaceWhere(tempData, HasKey(TempStoreId, updated.tempId), updated);
      }
    }

    /** The name column's `valueSetter`, with the id `uuidv4` would mint for a saved draft. */
    method SetName(row: StoreRow, newValue: string, freshId: string)
      modifies this, slice
      ensures View() == EditName(old(View()), row, newValue, freshId)
    {
      match row
      case Saved(s) =>
        slice.UpdateStore(s.(name := newValue));
      case Draft(t) =>
        var updated := t.(name := newValue);
        SaveOrKeepDraft(updated, Trim(updated.name) != "", freshId);
    }

    /** The city column's `valueSetter`. */
    method SetCity(row: StoreRow, newValue: string)
      modifies this, slice
      ensures View() == EditCity(old(View()), row, newValue)
    {
      match row
      case Saved(s) =>
        slice.UpdateStore(s.(city := newValue));
      case Draft(t) =>
        SaveOrKeepDraft(t.(city := newValue), false, "");
    }

    /** The state column's `valueSetter`. */
    method SetState(row: StoreRow, newValue: string)
      modifies this, slice
      ensures View() == EditState(old(View()), row, newValue)
    {
      match row
      case Saved(s) =>
        slice.UpdateStore(s.(state := newValue));
      case Draft(t) =>
        SaveOrKeepDraft(t.(state := newValue), false, "");
    }

    /**
     * The seeding effect, given the stored flag and the five ids `uuidv4`
     * would mint; returns the flag as it is stored afterwards.
     */
    method SeedStores(storesInitialized: bool, ids: seq<string>) returns (initialized: bool)
      requires |ids| == 5
      modifies slice
      ensures (initialized, slice.stores) == Seeded(storesInitialized, old(slice.stores), ids)
    {
      initialized := storesInitialized;
      if !storesInitialized && |slice.stores| == 0 {
        slice.SetStores(SampleStores(ids));
        initialized := true;
      }
    }
  }
}
