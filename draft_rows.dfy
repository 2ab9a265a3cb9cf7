/**
 * What the stores grid and the SKUs grid have in common: the grid shows the
 * saved records of the slice followed by the page's draft rows, a draft is
 * keyed by a temporary id until it is saved, and rows are numbered and
 * identified across both lists.
 */
module DraftRows {
  import opened Seqs

  /** A row of an editing grid: a saved record, or a draft not yet saved. */
  datatype GridRow<P, T> = Saved(saved: P) | Draft(draft: T)

  /** The two lists behind an editing grid: the slice's records and the page's drafts. */
  datatype Grid<P, T> = Grid(saved: seq<P>, drafts: seq<T>)

  /** `[...saved, ...tempData]`: the rows in display order. */
  function AllRows<P, T>(g: Grid<P, T>): (rows: seq<GridRow<P, T>>)
    ensures |rows| == |g.saved| + |g.drafts|
    ensures forall i :: 0 <= i < |g.saved| ==> rows[i] == Saved(g.saved[i])
    ensures forall j :: 0 <= j < |g.drafts| ==> rows[|g.saved| + j] == Draft(g.drafts[j])
  {
    seq(|g.saved|, i requires 0 <= i < |g.saved| => Saved(g.saved[i]))
      + seq(|g.drafts|, j requires 0 <= j < |g.drafts| => Draft(g.drafts[j]))
  }

  /** `getRowId`: the id of a saved row, the temporary id of a draft. */
  function RowId<P, T>(key: P -> string, draftKey: T -> string): GridRow<P, T> -> string
  {
    (row: GridRow<P, T>) => match row
      case Saved(p) => key(p)
      case Draft(t) => draftKey(t)
  }

  /** The S.No lookup: a row of the same kind with the same id. */
  function SameRow<P, T>(key: P -> string, draftKey: T -> string, row: GridRow<P, T>): GridRow<P, T> -> bool
  {
    (x: GridRow<P, T>) =>
      (x.Saved? && row.Saved? && key(x.saved) == key(row.saved))
      || (x.Draft? && row.Draft? && draftKey(x.draft) == draftKey(row.draft))
  }

  /** The rows a delete of `row` keeps: those not matched by the S.No lookup. */
  function OtherRow<P, T>(key: P -> string, draftKey: T -> string, row: GridRow<P, T>): GridRow<P, T> -> bool
  {
    (x: GridRow<P, T>) => !SameRow(key, draftKey, row)(x)
  }

  /** The S.No column: one more than the row's index in the grid, 0 for a row not found. */
  function SerialNumber<P, T>(g: Grid<P, T>, key: P -> string, draftKey: T -> string, row: GridRow<P, T>): int
  {
    FindIndex(AllRows(g), SameRow(key, draftKey, row)) + 1
  }

  /**
   * The invariant of an editing grid: saved ids are unique, temporary ids
   * are unique, and no temporary id is also a saved id.
   */
  ghost predicate WellFormed<P, T>(g: Grid<P, T>, key: P -> string, draftKey: T -> string)
  {
    UniqueKeys(g.saved, key) && UniqueKeys(g.drafts, draftKey) && Keys(g.saved, key) !! Keys(g.drafts, draftKey)
  }

  /** An id that neither a saved record nor a draft carries: what `uuidv4` is relied on for. */
  ghost predicate Fresh<P, T>(g: Grid<P, T>, key: P -> string, draftKey: T -> string, id: string)
  {
    id !in Keys(g.saved, key) && id !in Keys(g.drafts, draftKey)
  }

  /** Adding a draft row: `setTempData(prev => [...prev, draft])`. */
  function AddDraft<P, T>(g: Grid<P, T>, t: T): Grid<P, T>
  {
    g.(drafts := g.drafts + [t])
  }

  /** `handleDelete`: a saved row is deleted from the slice, a draft is filtered out by its temporary id. */
  function DeleteRow<P, T>(g: Grid<P, T>, key: P -> string, draftKey: T -> string, row: GridRow<P, T>): Grid<P, T>
  {
    match row
    case Saved(p) => g.(saved := RemoveByKey(g.saved, key, key(p)))
    case Draft(t) => g.(drafts := RemoveByKey(g.drafts, draftKey, draftKey(t)))
  }

  /** An edit of a saved row: the update-by-id reducer with the edited record. */
  function EditSaved<P, T>(g: Grid<P, T>, key: P -> string, p: P): Grid<P, T>
  {
    g.(saved := UpdateByKey(g.saved, key, p))
  }

  /** An edit that keeps a draft a draft: the drafts with its temporary id are replaced by it. */
  function EditDraft<P, T>(g: Grid<P, T>, draftKey: T -> string, t: T): Grid<P, T>
  {
    g.(drafts := ReplaceWhere(g.drafts, HasKey(draftKey, draftKey(t)), t))
  }

  /** Saving a draft: the new record is added to the slice and the draft dropped from the page. */
  function Promote<P, T>(g: Grid<P, T>, draftKey: T -> string, t: T, p: P): Grid<P, T>
  {
    Grid(g.saved + [p], RemoveByKey(g.drafts, draftKey, draftKey(t)))
  }

  /** In a well-formed grid the row ids are unique across saved rows and drafts. */
  lemma RowIdsUnique<P, T>(g: Grid<P, T>, key: P -> string, draftKey: T -> string)
    requires WellFormed(g, key, draftKey)
    ensures UniqueKeys(AllRows(g), RowId(key, draftKey))
  {
    var rows := AllRows(g);
    var n := |g.saved|;
    forall i, j | 0 <= i < j < |rows| ensures RowId(key, draftKey)(rows[i]) != RowId(key, draftKey)(rows[j]) {
      if j < n {
      } else if i < n {
        assert g.saved[i] in g.saved && g.drafts[j - n] in g.drafts;
        assert key(g.saved[i]) in Keys(g.saved, key);
        assert draftKey(g.drafts[j - n]) in Keys(g.drafts, draftKey);
      } else {
        assert rows[i] == Draft(g.drafts[i - n]) && rows[j] == Draft(g.drafts[j - n]);
      }
    }
  }

  /** In a well-formed grid the S.No of the row at index `k` is `k + 1`. */
  lemma SerialNumberIsPosition<P, T>(g: Grid<P, T>, key: P -> string, draftKey: T -> string, k: nat)
    requires WellFormed(g, key, draftKey) && k < |AllRows(g)|
    ensures SerialNumber(g, key, draftKey, AllRows(g)[k]) == k + 1
  {
    var rows := AllRows(g);
    var same := SameRow(key, draftKey, rows[k]);
    RowIdsUnique(g, key, draftKey);
    assert same(rows[k]);
    forall i | 0 <= i < k ensures !same(rows[i]) {
      assert RowId(key, draftKey)(rows[i]) != RowId(key, draftKey)(rows[k]);
    }
  }

  /** A row that is not in the grid has S.No 0. */
  lemma SerialNumberOfMissingRow<P, T>(g: Grid<P, T>, key: P -> string, draftKey: T -> string, row: GridRow<P, T>)
    ensures SerialNumber(g, key, draftKey, row) == 0 <==> forall x :: x in AllRows(g) ==> !SameRow(key, draftKey, row)(x)
  {
    var rows := AllRows(g);
    if SerialNumber(g, key, draftKey, row) != 0 {
      var i := FindIndex(rows, SameRow(key, draftKey, row));
      assert rows[i] in rows;
    }
  }

  /** Adding a draft with a fresh temporary id keeps the grid well formed and puts the draft last. */
  lemma AddDraftKeepsWellFormed<P, T>(g: Grid<P, T>, key: P -> string, draftKey: T -> string, t: T)
    requires WellFormed(g, key, draftKey) && Fresh(g, key, draftKey, draftKey(t))
    ensures WellFormed(AddDraft(g, t), key, draftKey)
    ensures AllRows(AddDraft(g, t)) == AllRows(g) + [Draft(t)]
  {
    AppendFreshKeepsUniqueKeys(g.drafts, draftKey, t);
    AppendKeys(g.drafts, draftKey, t);
  }

  /**
   * Deleting a row removes it, and only it, from the grid, keeps the other
   * list as it was, and keeps the grid well formed.
   */
  lemma DeleteRowRemovesIt<P, T>(g: Grid<P, T>, key: P -> string, draftKey: T -> string, row: GridRow<P, T>)
    requires WellFormed(g, key, draftKey)
    ensures WellFormed(DeleteRow(g, key, draftKey, row), key, draftKey)
    ensures forall x :: x in AllRows(DeleteRow(g, key, draftKey, row)) ==> !SameRow(key, draftKey, row)(x)
    ensures forall x :: x in AllRows(g) && !SameRow(key, draftKey, row)(x) ==> x in AllRows(DeleteRow(g, key, draftKey, row))
    ensures row.Saved? ==> DeleteRow(g, key, draftKey, row).drafts == g.drafts
    ensures row.Draft? ==> DeleteRow(g, key, draftKey, row).saved == g.saved
  {
    match row
    case Saved(p) =>
      RemoveByKeyKeepsUniqueKeys(g.saved, key, key(p));
      FilterKeys(g.saved, LacksKey(key, key(p)), key);
      DeleteSavedRow(g, key, draftKey, p);
    case Draft(t) =>
      RemoveByKeyKeepsUniqueKeys(g.drafts, draftKey, draftKey(t));
      FilterKeys(g.drafts, LacksKey(draftKey, draftKey(t)), draftKey);
      DeleteDraftRow(g, key, draftKey, t);
  }

  /**
   * The rows left after deleting a saved row: every other row, each copy of
   * it, in display order.
   */
  lemma DeleteSavedRow<P, T>(g: Grid<P, T>, key: P -> string, draftKey: T -> string, p: P)
    ensures forall x :: x in AllRows(DeleteRow(g, key, draftKey, Saved(p))) ==> !SameRow(key, draftKey, Saved(p))(x)
    ensures forall x :: x in AllRows(g) && !SameRow(key, draftKey, Saved(p))(x) ==> x in AllRows(DeleteRow(g, key, draftKey, Saved(p)))
    ensures AllRows(DeleteRow(g, key, draftKey, Saved(p))) == Filter(AllRows(g), OtherRow(key, draftKey, Saved(p)))
    ensures forall x :: x in AllRows(g) ==>
      multiset(AllRows(DeleteRow(g, key, draftKey, Saved(p))))[x] == if OtherRow(key, draftKey, Saved(p))(x) then multiset(AllRows(g))[x] else 0
  {
    var row := Saved(p);
    DeleteIsFilter(g, key, draftKey, row);
    var before, after := AllRows(g), AllRows(DeleteRow(g, key, draftKey, row));
    forall x | x in after ensures !SameRow(key, draftKey, row)(x) {
      var i :| 0 <= i < |after| && after[i] == x;
      RowLeftAfterDelete(g, key, draftKey, row, i);
    }
    forall x | x in before && !SameRow(key, draftKey, row)(x) ensures x in after {
      var i :| 0 <= i < |before| && before[i] == x;
      SavedRowKeptAfterDelete(g, key, draftKey, p, i);
    }
  }

  /**
   * The rows left after deleting a draft: every other row, each copy of
   * it, in display order.
   */
  lemma DeleteDraftRow<P, T>(g: Grid<P, T>, key: P -> string, draftKey: T -> string, t: T)
    ensures forall x :: x in AllRows(DeleteRow(g, key, draftKey, Draft(t))) ==> !SameRow(key, draftKey, Draft(t))(x)
    ensures forall x :: x in AllRows(g) && !SameRow(key, draftKey, Draft(t))(x) ==> x in AllRows(DeleteRow(g, key, draftKey, Draft(t)))
    ensures AllRows(DeleteRow(g, key, draftKey, Draft(t))) == Filter(AllRows(g), OtherRow(key, draftKey, Draft(t)))
    ensures forall x :: x in AllRows(g) ==>
      multiset(AllRows(DeleteRow(g, key, draftKey, Draft(t))))[x] == if OtherRow(key, draftKey, Draft(t))(x) then multiset(AllRows(g))[x] else 0
  {
    var row := Draft(t);
    DeleteIsFilter(g, key, draftKey, row);
    var before, after := AllRows(g), AllRows(DeleteRow(g, key, draftKey, row));
    forall x | x in after ensures !SameRow(key, draftKey, row)(x) {
      var i :| 0 <= i < |after| && after[i] == x;
      RowLeftAfterDelete(g, key, draftKey, row, i);
    }
    forall x | x in before && !SameRow(key, draftKey, row)(x) ensures x in after {
      var i :| 0 <= i < |before| && before[i] == x;
      DraftRowKeptAfterDelete(g, key, draftKey, t, i);
    }
  }

  /**
   * On the displayed rows, either delete is the filter that drops the rows
   * the S.No lookup matches, so it keeps every copy of every other row.
   */
  lemma DeleteIsFilter<P, T>(g: Grid<P, T>, key: P -> string, draftKey: T -> string, row: GridRow<P, T>)
    ensures AllRows(DeleteRow(g, key, draftKey, row)) == Filter(AllRows(g), OtherRow(key, draftKey, row))
    ensures forall x :: x in AllRows(g) ==>
      multiset(AllRows(DeleteRow(g, key, draftKey, row)))[x] == if OtherRow(key, draftKey, row)(x) then multiset(AllRows(g))[x] else 0
  {
    var keep := OtherRow(key, draftKey, row);
    var before, after := AllRows(g), AllRows(DeleteRow(g, key, draftKey, row));
    match row {
      case Saved(p) => DeleteSavedIsFilter(g, key, draftKey, p);
      case Draft(t) => DeleteDraftIsFilter(g, key, draftKey, t);
    }
    assert after == Filter(before, keep);
    FilterCounts(before, keep);
    forall x | x in before ensures multiset(after)[x] == if keep(x) then multiset(before)[x] else 0 {
      assert multiset(Filter(before, keep))[x] == if keep(x) then multiset(before)[x] else 0;
    }
  }

  /** Deleting a saved row filters the saved part and keeps every draft row. */
  lemma DeleteSavedIsFilter<P, T>(g: Grid<P, T>, key: P -> string, draftKey: T -> string, p: P)
    ensures AllRows(DeleteRow(g, key, draftKey, Saved(p))) == Filter(AllRows(g), OtherRow(key, draftKey, Saved(p)))
  {
    var keep := OtherRow(key, draftKey, Saved(p));
    var h := DeleteRow(g, key, draftKey, Saved(p));
    var savedPart, draftPart := AllRows(Grid<P, T>.Grid(g.saved, [])), AllRows(Grid<P, T>.Grid([], g.drafts));
    AllRowsSplit(g);
    AllRowsSplit(h);
    FilterAppend(savedPart, draftPart, keep);
    assert h.saved == Filter(g.saved, LacksKey(key, key(p))) && h.drafts == g.drafts;
    FilterSavedRows(g.saved, key, draftKey, p);
    DraftPartHoldsDrafts<P, T>(g.drafts);
    forall x | x in draftPart ensures keep(x) {
      assert keep(x) == !SameRow(key, draftKey, Saved(p))(x);
    }
    FilterKeepsAll(draftPart, keep);
  }

  /** Deleting a draft keeps every saved row and filters the draft part. */
  lemma DeleteDraftIsFilter<P, T>(g: Grid<P, T>, key: P -> string, draftKey: T -> string, t: T)
    ensures AllRows(DeleteRow(g, key, draftKey, Draft(t))) == Filter(AllRows(g), OtherRow(key, draftKey, Draft(t)))
  {
    var keep := OtherRow(key, draftKey, Draft(t));
    var h := DeleteRow(g, key, draftKey, Draft(t));
    var savedPart, draftPart := AllRows(Grid<P, T>.Grid(g.saved, [])), AllRows(Grid<P, T>.Grid([], g.drafts));
    AllRowsSplit(g);
    AllRowsSplit(h);
    FilterAppend(savedPart, draftPart, keep);
    assert h.saved == g.saved && h.drafts == Filter(g.drafts, LacksKey(draftKey, draftKey(t)));
    forall x | x in savedPart ensures keep(x) {
      var i :| 0 <= i < |savedPart| && savedPart[i] == x;
      assert x == Saved(g.saved[i]);
      assert keep(x) == !SameRow(key, draftKey, Draft(t))(x);
    }
    FilterKeepsAll(savedPart, keep);
    FilterDraftRows(g.drafts, key, draftKey, t);
  }

  /** A grid with no saved records shows only draft rows. */
  lemma DraftPartHoldsDrafts<P, T>(d: seq<T>)
    ensures forall x :: x in AllRows(Grid<P, T>.Grid([], d)) ==> x.Draft?
  {
    var rows := AllRows(Grid<P, T>.Grid([], d));
    forall x | x in rows ensures x.Draft? {
      var i :| 0 <= i < |rows| && rows[i] == x;
      assert rows[0 + i] == Draft(d[i]);
    }
  }

  /** The displayed rows are the saved rows followed by the drafts. */
  lemma AllRowsSplit<P, T>(g: Grid<P, T>)
    ensures AllRows(g) == AllRows(Grid<P, T>.Grid(g.saved, [])) + AllRows(Grid<P, T>.Grid([], g.drafts))
  {
  }

  /** Deleting a saved record filters the saved rows by its key. */
  lemma {:induction false} FilterSavedRows<P, T>(s: seq<P>, key: P -> string, draftKey: T -> string, p: P)
    ensures Filter(AllRows(Grid<P, T>.Grid(s, [])), OtherRow(key, draftKey, Saved(p))) ==
      AllRows(Grid<P, T>.Grid(Filter(s, LacksKey(key, key(p))), []))
  {
    if s != [] {
      var keep := OtherRow(key, draftKey, Saved(p));
      var rows := AllRows(Grid<P, T>.Grid(s, []));
      var tail := AllRows(Grid<P, T>.Grid(s[1..], []));
      FilterSavedRows(s[1..], key, draftKey, p);
      assert rows[1..] == tail;
      assert Filter(rows, keep) == (if keep(rows[0]) then [rows[0]] else []) + Filter(tail, keep);
      var lacks := LacksKey(key, key(p));
      var kept := if lacks(s[0]) then [s[0]] else [];
      assert rows[0] == Saved(s[0]);
      assert keep(rows[0]) == !SameRow(key, draftKey, Saved(p))(Saved(s[0]));
      assert SameRow(key, draftKey, Saved(p))(Saved(s[0])) == (key(s[0]) == key(p));
      assert keep(rows[0]) == lacks(s[0]);
      assert Filter(s, lacks) == kept + Filter(s[1..], lacks);
      assert AllRows(Grid<P, T>.Grid(kept, [])) == (if keep(rows[0]) then [rows[0]] else []);
      AllRowsAppendSaved<P, T>(kept, Filter(s[1..], lacks));
    }
  }

  /** Deleting a draft filters the draft rows by its temporary id. */
  lemma {:induction false} FilterDraftRows<P, T>(d: seq<T>, key: P -> string, draftKey: T -> string, t: T)
    ensures Filter(AllRows(Grid<P, T>.Grid([], d)), OtherRow(key, draftKey, Draft(t))) ==
      AllRows(Grid<P, T>.Grid([], Filter(d, LacksKey(draftKey, draftKey(t)))))
  {
    if d != [] {
      var keep := OtherRow(key, draftKey, Draft(t));
      var rows := AllRows(Grid<P, T>.Grid([], d));
      var tail := AllRows(Grid<P, T>.Grid([], d[1..]));
      FilterDraftRows(d[1..], key, draftKey, t);
      assert rows[1..] == tail;
      assert Filter(rows, keep) == (if keep(rows[0]) then [rows[0]] else []) + Filter(tail, keep);
      var lacks := LacksKey(draftKey, draftKey(t));
      var kept := if lacks(d[0]) then [d[0]] else [];
      assert rows[0] == Draft(d[0]);
      assert keep(rows[0]) == !SameRow(key, draftKey, Draft(t))(Draft(d[0]));
      assert SameRow(key, draftKey, Draft(t))(Draft(d[0])) == (draftKey(d[0]) == draftKey(t));
      assert keep(rows[0]) == lacks(d[0]);
      assert Filter(d, lacks) == kept + Filter(d[1..], lacks);
      assert AllRows(Grid<P, T>.Grid([], kept)) == (if keep(rows[0]) then [rows[0]] else []);
      AllRowsAppendDrafts<P, T>(kept, Filter(d[1..], lacks));
    }
  }

  /** Saved rows of a concatenation are the concatenation of the saved rows. */
  lemma AllRowsAppendSaved<P, T>(a: seq<P>, b: seq<P>)
    ensures AllRows(Grid<P, T>.Grid(a + b, [])) == AllRows(Grid<P, T>.Grid(a, [])) + AllRows(Grid<P, T>.Grid(b, []))
  {
  }

  /** Draft rows of a concatenation are the concatenation of the draft rows. */
  lemma AllRowsAppendDrafts<P, T>(a: seq<T>, b: seq<T>)
    ensures AllRows(Grid<P, T>.Grid([], a + b)) == AllRows(Grid<P, T>.Grid([], a)) + AllRows(Grid<P, T>.Grid([], b))
  {
  }

  /** The row at index `i` after a deletion is not the deleted row. */
  lemma RowLeftAfterDelete<P, T>(g: Grid<P, T>, key: P -> string, draftKey: T -> string, row: GridRow<P, T>, i: nat)
    requires i < |AllRows(DeleteRow(g, key, draftKey, row))|
    ensures !SameRow(key, draftKey, row)(AllRows(DeleteRow(g, key, draftKey, row))[i])
  {
    var h := DeleteRow(g, key, draftKey, row);
    if i < |h.saved| {
      var p := h.saved[i];
      assert AllRows(h)[i] == Saved(p);
      if row.Saved? {
        assert LacksKey(key, key(row.saved))(p);
      }
    } else {
      var d := h.drafts[i - |h.saved|];
      assert AllRows(h)[i] == Draft(d);
      if row.Draft? {
        assert LacksKey(draftKey, draftKey(row.draft))(d);
      }
    }
  }

  /** A row other than the deleted saved row is still there. */
  lemma SavedRowKeptAfterDelete<P, T>(g: Grid<P, T>, key: P -> string, draftKey: T -> string, p: P, i: nat)
    requires i < |AllRows(g)| && !SameRow(key, draftKey, Saved(p))(AllRows(g)[i])
    ensures AllRows(g)[i] in AllRows(DeleteRow(g, key, draftKey, Saved(p)))
  {
    var h := DeleteRow(g, key, draftKey, Saved(p));
    var after := AllRows(h);
    if i < |g.saved| {
      var s := g.saved[i];
      assert AllRows(g)[i] == Saved(s);
      assert LacksKey(key, key(p))(s) && s in g.saved;
      assert s in h.saved;
      var m :| 0 <= m < |h.saved| && h.saved[m] == s;
      assert after[m] == Saved(s);
    } else {
      var k := i - |g.saved|;
      assert AllRows(g)[i] == Draft(g.drafts[k]);
      assert after[|h.saved| + k] == Draft(g.drafts[k]);
    }
  }

  /** A row other than the deleted draft is still there. */
  lemma DraftRowKeptAfterDelete<P, T>(g: Grid<P, T>, key: P -> string, draftKey: T -> string, t: T, i: nat)
    requires i < |AllRows(g)| && !SameRow(key, draftKey, Draft(t))(AllRows(g)[i])
    ensures AllRows(g)[i] in AllRows(DeleteRow(g, key, draftKey, Draft(t)))
  {
    var h := DeleteRow(g, key, draftKey, Draft(t));
    var after := AllRows(h);
    if i < |g.saved| {
      assert AllRows(g)[i] == Saved(g.saved[i]) && after[i] == Saved(g.saved[i]);
    } else {
      var d := g.drafts[i - |g.saved|];
      assert AllRows(g)[i] == Draft(d);
      assert LacksKey(draftKey, draftKey(t))(d) && d in g.drafts;
      assert d in h.drafts;
      var m :| 0 <= m < |h.drafts| && h.drafts[m] == d;
      assert after[|h.saved| + m] == Draft(d);
    }
  }

  /** Editing a saved row keeps the grid well formed: the record keeps its id. */
  lemma EditSavedKeepsWellFormed<P, T>(g: Grid<P, T>, key: P -> string, draftKey: T -> string, p: P)
    requires WellFormed(g, key, draftKey)
    ensures WellFormed(EditSaved(g, key, p), key, draftKey)
    ensures EditSaved(g, key, p).drafts == g.drafts
  {
    UpdateByKeyKeepsUniqueKeys(g.saved, key, p);
  }

  /** Editing a draft in place keeps the grid well formed: the draft keeps its temporary id. */
  lemma EditDraftKeepsWellFormed<P, T>(g: Grid<P, T>, key: P -> string, draftKey: T -> string, t: T)
    requires WellFormed(g, key, draftKey)
    ensures WellFormed(EditDraft(g, draftKey, t), key, draftKey)
    ensures EditDraft(g, draftKey, t).saved == g.saved
  {
    ReplaceByKeyKeepsUniqueKeys(g.drafts, draftKey, t);
  }

  /** Saving a draft under a fresh id keeps the grid well formed. */
  lemma PromoteKeepsWellFormed<P, T>(g: Grid<P, T>, key: P -> string, draftKey: T -> string, t: T, p: P)
    requires WellFormed(g, key, draftKey) && Fresh(g, key, draftKey, key(p))
    ensures WellFormed(Promote(g, draftKey, t, p), key, draftKey)
  {
    RemoveByKeyKeepsUniqueKeys(g.drafts, draftKey, draftKey(t));
    FilterKeys(g.drafts, LacksKey(draftKey, draftKey(t)), draftKey);
    AppendFreshKeepsUniqueKeys(g.saved, key, p);
    AppendKeys(g.saved, key, p);
  }

  /**
   * Saving a draft that is in the grid, under a fresh id: the draft leaves
   * the page, the new record becomes the last saved row (S.No one past the
   * old saved rows), the number of rows is unchanged and the grid stays well
   * formed.
   */
  lemma PromoteMovesRow<P, T>(g: Grid<P, T>, key: P -> string, draftKey: T -> string, t: T, p: P)
    requires WellFormed(g, key, draftKey) && draftKey(t) in Keys(g.drafts, draftKey)
    requires Fresh(g, key, draftKey, key(p))
    ensures WellFormed(Promote(g, draftKey, t, p), key, draftKey)
    ensures |AllRows(Promote(g, draftKey, t, p))| == |AllRows(g)|
    ensures SerialNumber(Promote(g, draftKey, t, p), key, draftKey, Saved(p)) == |g.saved| + 1
    ensures forall d :: d in Promote(g, draftKey, t, p).drafts ==> draftKey(d) != draftKey(t)
  {
    var h := Promote(g, draftKey, t, p);
    RemoveByKeyRemovesOne(g.drafts, draftKey, draftKey(t));
    PromoteKeepsWellFormed(g, key, draftKey, t, p);
    SerialNumberIsPosition(h, key, draftKey, |g.saved|);
    forall d | d in h.drafts ensures draftKey(d) != draftKey(t) {
      var i :| 0 <= i < |h.drafts| && h.drafts[i] == d;
    }
  }
}
