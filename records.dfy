/**
 * The list transforms both admin dashboards apply to their in-memory tables of
 * students and teachers: all of them are expressions over the current array
 * (`map` with an object spread, array spread, `filter`), so they are functions
 * on sequences here.
 */
module Records {

  /** A table row: the numeric `id` every record carries, and the schema fields. */
  datatype Record<F> = Record(id: int, fields: F)

  /**
   * `{ ...record, ...values }`. A form always holds every field of its schema
   * and no `id`, so every field comes from `values` and the record keeps its id.
   */
  function Merge<F>(r: Record<F>, values: F): (m: Record<F>)
    ensures m.id == r.id && m.fields == values
  {
    Record(r.id, values)
  }

  /** `{ id: freshId, ...values }`: a new row built from the submitted form. */
  function NewRecord<F>(freshId: int, values: F): (m: Record<F>)
    ensures m.id == freshId && m.fields == values
  {
    Record(freshId, values)
  }

  /** The ids of a table, in row order. */
  function Ids<F>(rs: seq<Record<F>>): (ids: seq<int>)
    ensures |ids| == |rs|
    ensures forall k :: 0 <= k < |rs| ==> ids[k] == rs[k].id
  {
    seq(|rs|, k requires 0 <= k < |rs| => rs[k].id)
  }

  /** How many rows of the table carry `id`; ids are not guaranteed unique. */
  function CountId<F>(rs: seq<Record<F>>, id: int): (n: nat)
    ensures n <= |rs|
    ensures n == 0 <==> id !in Ids(rs)
  {
    if rs == [] then 0
    else (if rs[0].id == id then 1 else 0) + CountId(rs[1..], id)
  }

  /**
   * `rs.map(r => r.id === id ? { ...r, ...values } : r)`: every row whose id
   * matches is merged with the form values, every other row is kept.
   */
  function UpdateById<F>(rs: seq<Record<F>>, id: int, values: F): (r: seq<Record<F>>)
    ensures |r| == |rs|
  {
    if rs == [] then []
    else [if rs[0].id == id then Merge(rs[0], values) else rs[0]] + UpdateById(rs[1..], id, values)
  }

  /** `[...rs, rec]`: the table with one more row at the end. */
  function Append<F>(rs: seq<Record<F>>, rec: Record<F>): (r: seq<Record<F>>)
    ensures |r| == |rs| + 1
    ensures r[..|rs|] == rs && r[|rs|] == rec
  {
    rs + [rec]
  }

  /** `rs.filter(r => r.id !== id)`. */
  function RemoveById<F>(rs: seq<Record<F>>, id: int): (r: seq<Record<F>>)
    ensures |r| <= |rs|
    ensures forall k :: 0 <= k < |r| ==> r[k].id != id
  {
    if rs == [] then []
    else (if rs[0].id == id then [] else [rs[0]]) + RemoveById(rs[1..], id)
  }

  // ---------------------------------------------------------------------------
  // Update

  /** Row k of the updated table is row k of the old one, merged exactly when its id matches. */
  lemma {:induction false} UpdateByIdAt<F>(rs: seq<Record<F>>, id: int, values: F, k: int)
    requires 0 <= k < |rs|
    ensures UpdateById(rs, id, values)[k] == if rs[k].id == id then Merge(rs[k], values) else rs[k]
  {
    if k > 0 {
      UpdateByIdAt(rs[1..], id, values, k - 1);
    }
  }

  /** The update keeps the length, the ids and their order; only the fields of matching rows change. */
  lemma {:induction false} UpdateByIdRows<F>(rs: seq<Record<F>>, id: int, values: F)
    ensures |UpdateById(rs, id, values)| == |rs|
    ensures Ids(UpdateById(rs, id, values)) == Ids(rs)
    ensures forall k :: 0 <= k < |rs| && rs[k].id == id ==> UpdateById(rs, id, values)[k].fields == values
    ensures forall k :: 0 <= k < |rs| && rs[k].id != id ==> UpdateById(rs, id, values)[k] == rs[k]
  {
    var r := UpdateById(rs, id, values);
    forall k | 0 <= k < |rs|
      ensures r[k] == if rs[k].id == id then Merge(rs[k], values) else rs[k]
    {
      UpdateByIdAt(rs, id, values, k);
    }
  }

  /** Updating by an id no row carries leaves the table as it was. */
  lemma {:induction false} UpdateByIdAbsent<F>(rs: seq<Record<F>>, id: int, values: F)
    requires id !in Ids(rs)
    ensures UpdateById(rs, id, values) == rs
  {
    if rs != [] {
      assert Ids(rs[1..]) == Ids(rs)[1..];
      UpdateByIdAbsent(rs[1..], id, values);
    }
  }

  /** Submitting the same form twice for the same record gives the same table as submitting it once. */
  lemma {:induction false} UpdateByIdIdempotent<F>(rs: seq<Record<F>>, id: int, values: F)
    ensures UpdateById(UpdateById(rs, id, values), id, values) == UpdateById(rs, id, values)
  {
    if rs != [] {
      var r := UpdateById(rs, id, values);
      assert r[1..] == UpdateById(rs[1..], id, values);
      UpdateByIdIdempotent(rs[1..], id, values);
    }
  }

  // ---------------------------------------------------------------------------
  // Remove

  /** Removal is computed row by row: it distributes over concatenation, so the kept rows stay in order. */
  lemma {:induction false} RemoveByIdConcat<F>(a: seq<Record<F>>, b: seq<Record<F>>, id: int)
    ensures RemoveById(a + b, id) == RemoveById(a, id) + RemoveById(b, id)
  {
    if a == [] {
      assert a + b == b;
    } else {
      assert (a + b)[1..] == a[1..] + b;
      RemoveByIdConcat(a[1..], b, id);
    }
  }

  /** A single row is kept exactly when its id differs. */
  lemma RemoveByIdSingle<F>(x: Record<F>, id: int)
    ensures RemoveById([x], id) == if x.id == id then [] else [x]
  {
    assert [x][1..] == [];
  }

  /** The remaining rows are exactly the old rows whose id differs, each as often as before. */
  lemma {:induction false} RemoveByIdMultiset<F>(rs: seq<Record<F>>, id: int, x: Record<F>)
    ensures multiset(RemoveById(rs, id))[x] == if x.id == id then 0 else multiset(rs)[x]
  {
    if rs != [] {
      RemoveByIdMultiset(rs[1..], id, x);
      assert rs == [rs[0]] + rs[1..];
    }
  }

  /** A row is in the result exactly when it was in the table and its id differs. */
  lemma {:induction false} RemoveByIdMembers<F>(rs: seq<Record<F>>, id: int, x: Record<F>)
    ensures x in RemoveById(rs, id) <==> x in rs && x.id != id
  {
    RemoveByIdMultiset(rs, id, x);
  }

  /** Removal drops one row per occurrence of the id. */
  lemma {:induction false} RemoveByIdLength<F>(rs: seq<Record<F>>, id: int)
    ensures |RemoveById(rs, id)| == |rs| - CountId(rs, id)
  {
    if rs != [] {
      RemoveByIdLength(rs[1..], id);
    }
  }

  /** The table shrinks exactly when some row carries the id. */
  lemma {:induction false} RemoveByIdAbsent<F>(rs: seq<Record<F>>, id: int)
    ensures |RemoveById(rs, id)| < |rs| <==> id in Ids(rs)
  {
    RemoveByIdLength(rs, id);
  }

  /** Deleting by an id no row carries returns the table itself. */
  lemma {:induction false} RemoveByIdUnchanged<F>(rs: seq<Record<F>>, id: int)
    requires id !in Ids(rs)
    ensures RemoveById(rs, id) == rs
  {
    if rs != [] {
      assert Ids(rs[1..]) == Ids(rs)[1..];
      RemoveByIdUnchanged(rs[1..], id);
    }
  }

  /** Deleting twice by the same id is the same as deleting once. */
  lemma {:induction false} RemoveByIdIdempotent<F>(rs: seq<Record<F>>, id: int)
    ensures RemoveById(RemoveById(rs, id), id) == RemoveById(rs, id)
  {
    var r := RemoveById(rs, id);
    assert id !in Ids(r);
    RemoveByIdUnchanged(r, id);
  }

  // ---------------------------------------------------------------------------
  // How the three transforms combine

  /** Deleting a record that was just edited gives the same table as deleting it unedited. */
  lemma {:induction false} RemoveAfterUpdate<F>(rs: seq<Record<F>>, id: int, values: F)
    ensures RemoveById(UpdateById(rs, id, values), id) == RemoveById(rs, id)
  {
    if rs != [] {
      var r := UpdateById(rs, id, values);
      assert r == [r[0]] + r[1..];
      RemoveByIdConcat([r[0]], r[1..], id);
      RemoveByIdConcat([rs[0]], rs[1..], id);
      assert rs == [rs[0]] + rs[1..];
      RemoveByIdSingle(r[0], id);
      RemoveByIdSingle(rs[0], id);
      RemoveAfterUpdate(rs[1..], id, values);
    }
  }

  /** Deleting the row a create just appended undoes the create when its id was new to the table. */
  lemma {:induction false} RemoveAfterAppend<F>(rs: seq<Record<F>>, rec: Record<F>)
    ensures RemoveById(Append(rs, rec), rec.id) == RemoveById(rs, rec.id)
    ensures rec.id !in Ids(rs) ==> RemoveById(Append(rs, rec), rec.id) == rs
  {
    RemoveByIdConcat(rs, [rec], rec.id);
    RemoveByIdSingle(rec, rec.id);
    if rec.id !in Ids(rs) {
      RemoveByIdUnchanged(rs, rec.id);
    }
  }

  /** Updating after a create touches the old rows as before and the new row on its own. */
  lemma {:induction false} UpdateAfterAppend<F>(rs: seq<Record<F>>, rec: Record<F>, id: int, values: F)
    ensures UpdateById(Append(rs, rec), id, values)
         == Append(UpdateById(rs, id, values), if rec.id == id then Merge(rec, values) else rec)
  {
    UpdateByIdConcat(rs, [rec], id, values);
  }

  /** The update is computed row by row: it distributes over concatenation. */
  lemma {:induction false} UpdateByIdConcat<F>(a: seq<Record<F>>, b: seq<Record<F>>, id: int, values: F)
    ensures UpdateById(a + b, id, values) == UpdateById(a, id, values) + UpdateById(b, id, values)
  {
    if a == [] {
      assert a + b == b;
    } else {
      assert (a + b)[1..] == a[1..] + b;
      UpdateByIdConcat(a[1..], b, id, values);
    }
  }
}
