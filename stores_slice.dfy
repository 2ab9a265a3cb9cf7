/**
 * The stores reducer: the ordered list of saved stores, with append,
 * update-by-id, delete-by-id and wholesale replacement.
 */
module StoresSlice {
  import opened Seqs

  /** A saved store. */
  datatype PermanentStore = PermanentStore(id: string, name: string, city: string, state: string)

  /** A draft row of the stores grid, not yet saved. */
  datatype TempStore = TempStore(tempId: string, name: string, city: string, state: string)

  /** The identity of a saved store. */
  function StoreId(s: PermanentStore): string
  {
    s.id
  }

  /** `updateStore` keeps the ids unique and the set of ids unchanged. */
  lemma UpdateStoreKeepsIdsUnique(stores: seq<PermanentStore>, payload: PermanentStore)
    requires UniqueKeys(stores, StoreId)
    ensures UniqueKeys(UpdateByKey(stores, StoreId, payload), StoreId)
    ensures Keys(UpdateByKey(stores, StoreId, payload), StoreId) == Keys(stores, StoreId)
  {
    UpdateByKeyKeepsUniqueKeys(stores, StoreId, payload);
  }

  /** `deleteStore` keeps the ids unique and leaves no store with the id. */
  lemma DeleteStoreKeepsIdsUnique(stores: seq<PermanentStore>, id: string)
    requires UniqueKeys(stores, StoreId)
    ensures UniqueKeys(RemoveByKey(stores, StoreId, id), StoreId)
    ensures id !in Keys(RemoveByKey(stores, StoreId, id), StoreId)
  {
    RemoveByKeyKeepsUniqueKeys(stores, StoreId, id);
  }

  /** The stores slice of the store: `state.stores`. */
  class StoresState {
    var stores: seq<PermanentStore>

    /** The initial state, loaded from storage by the caller. */
    constructor (initial: seq<PermanentStore>)
      ensures stores == initial
    {
      stores := initial;
    }

    /** `setStores`: replace the whole list. */
    method SetStores(payload: seq<PermanentStore>)
      modifies this
      ensures stores == payload
    {
      stores := payload;
    }

    /** `addStore`: push the payload as the last store. */
    method AddStore(payload: PermanentStore)
      modifies this
      ensures stores == old(stores) + [payload]
      ensures |stores| == |old(stores)| + 1 && stores[|stores| - 1] == payload
    {
      stores := stores + [payload];
    }

    /** `updateStore`: replace the first store with the payload's id, if any. */
    method UpdateStore(payload: PermanentStore)
      modifies this
      ensures stores == UpdateByKey(old(stores), StoreId, payload)
    {
      var index := FindIndex(stores, HasKey(StoreId, payload.id));
      if index != -1 {
        stores := stores[index := payload];
      }
    }

    /** `deleteStore`: keep the stores whose id differs. */
    method DeleteStore(id: string)
      modifies this
      ensures stores == RemoveByKey(old(stores), StoreId, id)
    {
      stores := Filter(stores, LacksKey(StoreId, id));
    }
  }
}
