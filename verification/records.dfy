/** The list logic shared by the property and broker handlers: replace by id
    in edit mode, append in add mode, delete by id. */
module Records {
  import opened Wrappers
  import Seqs

  /** Record identifiers (`Date.now()` timestamps in the application). */
  type Id = int

  /** A saved record: the form's fields with the id stamped on them, as
      `{ ...formData, id }` builds it. */
  datatype Stored<T> = Stored(id: Id, fields: T)

  /** Whether a save edits an existing record. The editing id is tested for
      JavaScript truthiness, so both an absent id and the id 0 mean add mode. */
  function IsEditing(editingId: Option<Id>): (b: bool)
    ensures !b <==> editingId in {None, Some(0)}
  {
    editingId.Some? && editingId.value != 0
  }

  /** The ids of a list, in order. */
  function IdsOf<T>(list: seq<Stored<T>>): (ids: seq<Id>)
    ensures |ids| == |list|
    ensures forall i :: 0 <= i < |list| ==> ids[i] == list[i].id
    decreases |list|
  {
    if list == [] then [] else [list[0].id] + IdsOf(list[1..])
  }

  /** No two records share an id. */
  ghost predicate UniqueIds<T>(list: seq<Stored<T>>) {
    forall i, j :: 0 <= i < j < |list| ==> list[i].id != list[j].id
  }

  /** The edit-mode update: every record carrying `id` becomes the form's
      fields under that same id; the other records stay where they are. */
  function ReplaceById<T>(list: seq<Stored<T>>, id: Id, form: T): (r: seq<Stored<T>>)
    ensures |r| == |list|
    ensures forall i :: 0 <= i < |list| && list[i].id == id ==> r[i] == Stored(id, form)
    ensures forall i :: 0 <= i < |list| && list[i].id != id ==> r[i] == list[i]
    decreases |list|
  {
    if list == [] then []
    else [if list[0].id == id then Stored(id, form) else list[0]] + ReplaceById(list[1..], id, form)
  }

  /** The list after a save that passed validation: in edit mode the records
      carrying `editingId` are replaced by the form, in add mode the form is
      appended under the fresh id. */
  function Upsert<T>(list: seq<Stored<T>>, form: T, editingId: Option<Id>, freshId: Id): (r: seq<Stored<T>>)
    ensures IsEditing(editingId) ==>
      && IdsOf(r) == IdsOf(list)
      && (forall i :: 0 <= i < |r| && r[i].id == editingId.value ==> r[i].fields == form)
      && (forall i :: 0 <= i < |r| && r[i].id != editingId.value ==> r[i] == list[i])
    ensures !IsEditing(editingId) ==>
      && |r| == |list| + 1
      && r[..|list|] == list
      && r[|list|] == Stored(freshId, form)
  {
    if IsEditing(editingId) then ReplaceById(list, editingId.value, form)
    else list + [Stored(freshId, form)]
  }

  /** Delete: drop every record carrying `id`, keeping the others in order. */
  function RemoveById<T>(list: seq<Stored<T>>, id: Id): (r: seq<Stored<T>>)
    ensures forall x :: x in r ==> x in list && x.id != id
    ensures forall i :: 0 <= i < |list| && list[i].id != id ==> list[i] in r
  {
    Seqs.Filter(list, (x: Stored<T>) => x.id != id)
  }

  /** Deleting keeps exactly the records with another id, in their original
      relative order. */
  lemma RemoveByIdExact<T>(list: seq<Stored<T>>, id: Id, x: Stored<T>)
    ensures Seqs.IsSubsequence(RemoveById(list, id), list)
    ensures multiset(RemoveById(list, id))[x] == if x.id != id then multiset(list)[x] else 0
  {
    Seqs.FilterIsSubsequence(list, (y: Stored<T>) => y.id != id);
    Seqs.FilterCounts(list, (y: Stored<T>) => y.id != id, x);
  }

  /** Deleting the same id twice is deleting it once. */
  lemma RemoveIdempotent<T>(list: seq<Stored<T>>, id: Id)
    ensures RemoveById(RemoveById(list, id), id) == RemoveById(list, id)
  {
    Seqs.FilterIdempotent(list, (x: Stored<T>) => x.id != id);
  }

  /** Deleting an id that no record carries leaves the list as it is. */
  lemma RemoveAbsentIsNoop<T>(list: seq<Stored<T>>, id: Id)
    requires forall i :: 0 <= i < |list| ==> list[i].id != id
    ensures RemoveById(list, id) == list
  {
    Seqs.FilterKeepsAll(list, (x: Stored<T>) => x.id != id);
  }

  /** In a list with unique ids, deleting the id of record `k` removes that
      record and nothing else. */
  lemma RemovePresentDropsOne<T>(list: seq<Stored<T>>, k: int)
    requires UniqueIds(list)
    requires 0 <= k < |list|
    ensures RemoveById(list, list[k].id) == list[..k] + list[k + 1..]
  {
    var id := list[k].id;
    var keep := (x: Stored<T>) => x.id != id;
    var before, after := list[..k], list[k + 1..];
    assert list == before + ([list[k]] + after);
    Seqs.FilterAppend(before, [list[k]] + after, keep);
    Seqs.FilterAppend([list[k]], after, keep);
    assert Seqs.Filter([list[k]], keep) == [];
    Seqs.FilterKeepsAll(before, keep);
    Seqs.FilterKeepsAll(after, keep);
  }

  /** A subsequence of a list with unique ids has unique ids. */
  lemma {:induction false} SubsequenceKeepsUnique<T>(a: seq<Stored<T>>, b: seq<Stored<T>>)
    requires Seqs.IsSubsequence(a, b)
    requires UniqueIds(b)
    ensures UniqueIds(a)
    decreases |b|
  {
    if a != [] {
      if a[0] == b[0] && Seqs.IsSubsequence(a[1..], b[1..]) {
        SubsequenceKeepsUnique(a[1..], b[1..]);
        Seqs.SubsequenceElements(a[1..], b[1..]);
        forall j | 0 < j < |a| ensures a[0].id != a[j].id {
          assert a[j] in a[1..];
          var k :| 0 <= k < |b[1..]| && b[1..][k] == a[j];
          assert b[k + 1] == a[j];
        }
      } else {
        SubsequenceKeepsUnique(a, b[1..]);
      }
    }
  }

  /** Deleting keeps ids unique. */
  lemma RemoveKeepsUnique<T>(list: seq<Stored<T>>, id: Id)
    requires UniqueIds(list)
    ensures UniqueIds(RemoveById(list, id))
  {
    Seqs.FilterIsSubsequence(list, (x: Stored<T>) => x.id != id);
    SubsequenceKeepsUnique(RemoveById(list, id), list);
  }

  /** Saving keeps ids unique, provided that in add mode the new id is not
      already in use. */
  lemma UpsertKeepsUnique<T>(list: seq<Stored<T>>, form: T, editingId: Option<Id>, freshId: Id)
    requires UniqueIds(list)
    requires !IsEditing(editingId) ==> forall i :: 0 <= i < |list| ==> list[i].id != freshId
    ensures UniqueIds(Upsert(list, form, editingId, freshId))
  {
    var r := Upsert(list, form, editingId, freshId);
    if IsEditing(editingId) {
      forall i, j | 0 <= i < j < |r| ensures r[i].id != r[j].id {
        assert IdsOf(r)[i] == IdsOf(list)[i] && IdsOf(r)[j] == IdsOf(list)[j];
      }
    } else {
      forall i, j | 0 <= i < j < |r| ensures r[i].id != r[j].id {
        assert r[i] == list[i];
      }
    }
  }

  /** In a list with unique ids, an edit of the id of record `k` rewrites that
      record and leaves every other one in place. */
  lemma EditChangesOnlyTarget<T>(list: seq<Stored<T>>, form: T, editingId: Option<Id>, freshId: Id, k: int)
    requires UniqueIds(list)
    requires IsEditing(editingId)
    requires 0 <= k < |list| && list[k].id == editingId.value
    ensures Upsert(list, form, editingId, freshId) == list[k := Stored(editingId.value, form)]
  {
  }

  /** An edit whose id no longer names a record (it was deleted meanwhile)
      leaves the list as it is. */
  lemma EditOfUnknownIdIsNoop<T>(list: seq<Stored<T>>, form: T, editingId: Option<Id>, freshId: Id)
    requires IsEditing(editingId)
    requires forall i :: 0 <= i < |list| ==> list[i].id != editingId.value
    ensures Upsert(list, form, editingId, freshId) == list
  {
  }

  /** Deleting a record just added under a fresh id restores the list. */
  lemma RemoveUndoesAdd<T>(list: seq<Stored<T>>, form: T, editingId: Option<Id>, freshId: Id)
    requires !IsEditing(editingId)
    requires forall i :: 0 <= i < |list| ==> list[i].id != freshId
    ensures RemoveById(Upsert(list, form, editingId, freshId), freshId) == list
  {
    var keep := (x: Stored<T>) => x.id != freshId;
    Seqs.FilterAppend(list, [Stored(freshId, form)], keep);
    Seqs.FilterKeepsAll(list, keep);
  }
}
