/**
 * The SKUs reducer: the ordered list of saved SKUs, with append,
 * update-by-id, delete-by-id and wholesale replacement.
 */
module SkusSlice {
  import opened Seqs

  /** A saved SKU. */
  datatype PermanentSku = PermanentSku(id: string, sku: string, price: real, cost: real)

  /** A draft row of the SKUs grid, not yet saved. */
  datatype TempSku = TempSku(tempId: string, sku: string, price: real, cost: real)

  /** The identity of a saved SKU. */
  function SkuId(s: PermanentSku): string
  {
    s.id
  }

  /** `updateSKU` keeps the ids unique and the set of ids unchanged. */
  lemma UpdateSkuKeepsIdsUnique(skus: seq<PermanentSku>, payload: PermanentSku)
    requires UniqueKeys(skus, SkuId)
    ensures UniqueKeys(UpdateByKey(skus, SkuId, payload), SkuId)
    ensures Keys(UpdateByKey(skus, SkuId, payload), SkuId) == Keys(skus, SkuId)
  {
    UpdateByKeyKeepsUniqueKeys(skus, SkuId, payload);
  }

  /** `deleteSKU` keeps the ids unique and leaves no SKU with the id. */
  lemma DeleteSkuKeepsIdsUnique(skus: seq<PermanentSku>, id: string)
    requires UniqueKeys(skus, SkuId)
    ensures UniqueKeys(RemoveByKey(skus, SkuId, id), SkuId)
    ensures id !in Keys(RemoveByKey(skus, SkuId, id), SkuId)
  {
    RemoveByKeyKeepsUniqueKeys(skus, SkuId, id);
  }

  /** The SKUs slice of the store: `state.skus`. */
  class SkusState {
    var skus: seq<PermanentSku>

    /** The initial state, loaded from storage by the caller. */
    constructor (initial: seq<PermanentSku>)
      ensures skus == initial
    {
      skus := initial;
    }

    /** `setSKUs`: replace the whole list. */
    method SetSkus(payload: seq<PermanentSku>)
      modifies this
      ensures skus == payload
    {
      skus := payload;
    }

    /** `addSKU`: push the payload as the last SKU. */
    method AddSku(payload: PermanentSku)
      modifies this
      ensures skus == old(skus) + [payload]
      ensures |skus| == |old(skus)| + 1 && skus[|skus| - 1] == payload
    {
      skus := skus + [payload];
    }

    /** `updateSKU`: replace the first SKU with the payload's id, if any. */
    method UpdateSku(payload: PermanentSku)
      modifies this
      ensures skus == UpdateByKey(old(skus), SkuId, payload)
    {
      var index := FindIndex(skus, HasKey(SkuId, payload.id));
      if index != -1 {
        skus := skus[index := payload];
      }
    }

    /** `deleteSKU`: keep the SKUs whose id differs. */
    method DeleteSku(id: string)
      modifies this
      ensures skus == RemoveByKey(old(skus), SkuId, id)
    {
      skus := Filter(skus, LacksKey(SkuId, id));
    }
  }
}
