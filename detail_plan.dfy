/**
 * The classification step of `updatePineLabsDetails`: given the detail rows
 * the server holds for one mapping (the snapshot, keyed by id) and the edit
 * buffer read from the form, which entries are inserted, which are updated,
 * and which stored ids are deleted. Nothing here touches the store.
 *
 * The id type `K` is left abstract: the snapshot is keyed by the ids the
 * server returns, the buffer carries whatever ids the caller read, and the
 * two are compared only with `==` (the `Map.has` lookup).
 */
module DetailPlan {
  import opened JsValues

  /** The four text columns of a Pine Labs detail row. */
  datatype DetailFields = DetailFields(posId: Field, tid: Field, serialNo: Field, storeId: Field)

  /** One edit-buffer entry: an optional id and the four fields, always strings. */
  datatype BufEntry<K> = BufEntry(id: Option<K>, posId: string, tid: string, serialNo: string, storeId: string)

  /** The outcome of classification: rows to insert and to update, ids to delete. */
  datatype Plan<K> = Plan(inserts: seq<BufEntry<K>>, updates: seq<BufEntry<K>>, deletes: set<K>)

  /** `pos_id || tid || serial_no || store_id`: at least one field is non-empty. */
  predicate Meaningful<K>(e: BufEntry<K>) {
    e.posId != "" || e.tid != "" || e.serialNo != "" || e.storeId != ""
  }

  /** The entry's fields as the columns they are written to. */
  function AsFields<K>(e: BufEntry<K>): DetailFields {
    DetailFields(Str(e.posId), Str(e.tid), Str(e.serialNo), Str(e.storeId))
  }

  /** `id !== null && existingDbMap.has(id)`: the entry names a row of the snapshot. */
  predicate Matched<K(==)>(snap: map<K, DetailFields>, e: BufEntry<K>) {
    e.id.Some? && e.id.value in snap
  }

  /**
   * `hasChanged`: some stored field differs, under `!==`, from the entry's
   * string. A stored `null` therefore differs from the empty string.
   */
  function HasChanged<K>(stored: DetailFields, e: BufEntry<K>): (changed: bool)
    ensures changed <==> stored != AsFields(e)
    ensures stored.posId == Null ==> changed
  {
    stored.posId != Str(e.posId) || stored.tid != Str(e.tid)
    || stored.serialNo != Str(e.serialNo) || stored.storeId != Str(e.storeId)
  }

  /** The entries an insert is queued for: new (unmatched) and meaningful. */
  predicate QueuedForInsert<K(==)>(snap: map<K, DetailFields>, e: BufEntry<K>) {
    !Matched(snap, e) && Meaningful(e)
  }

  /** The entries an update is queued for: matched, with some field changed. */
  predicate QueuedForUpdate<K(==)>(snap: map<K, DetailFields>, e: BufEntry<K>) {
    Matched(snap, e) && HasChanged(snap[e.id.value], e)
  }

  /** `detailsToInsert`, built by pushing in buffer order. */
  function Inserts<K(==)>(snap: map<K, DetailFields>, buf: seq<BufEntry<K>>): (r: seq<BufEntry<K>>)
    ensures |r| <= |buf|
    decreases |buf|
  {
    if buf == [] then []
    else
      var last := buf[|buf| - 1];
      Inserts(snap, buf[..|buf| - 1]) + (if QueuedForInsert(snap, last) then [last] else [])
  }

  /** `detailsToUpdate`, built by pushing in buffer order. */
  function Updates<K(==)>(snap: map<K, DetailFields>, buf: seq<BufEntry<K>>): (r: seq<BufEntry<K>>)
    ensures |r| <= |buf|
    decreases |buf|
  {
    if buf == [] then []
    else
      var last := buf[|buf| - 1];
      Updates(snap, buf[..|buf| - 1]) + (if QueuedForUpdate(snap, last) then [last] else [])
  }

  /** `idsInFormForUpdateAndInsert`: ids of the matched entries, changed or not. */
  function KeptIds<K(==)>(snap: map<K, DetailFields>, buf: seq<BufEntry<K>>): set<K> {
    set e | e in buf && Matched(snap, e) :: e.id.value
  }

  /** `idsToDelete`: snapshot ids that no matched entry carries. */
  function Deletes<K(==)>(snap: map<K, DetailFields>, buf: seq<BufEntry<K>>): (r: set<K>)
    ensures r <= snap.Keys
  {
    snap.Keys - KeptIds(snap, buf)
  }

  function MakePlan<K(==)>(snap: map<K, DetailFields>, buf: seq<BufEntry<K>>): Plan<K> {
    Plan(Inserts(snap, buf), Updates(snap, buf), Deletes(snap, buf))
  }

  /** The meaningful entries of a buffer, in order. */
  function MeaningfulEntries<K>(buf: seq<BufEntry<K>>): (r: seq<BufEntry<K>>)
    ensures |r| <= |buf|
    ensures forall i :: 0 <= i < |r| ==> r[i] in buf && Meaningful(r[i])
    ensures forall i :: 0 <= i < |buf| && Meaningful(buf[i]) ==> buf[i] in r
    decreases |buf|
  {
    if buf == [] then []
    else
      var last := buf[|buf| - 1];
      MeaningfulEntries(buf[..|buf| - 1]) + (if Meaningful(last) then [last] else [])
  }

  /** An entry is among the queued inserts exactly when it is in the buffer and queued for insert. */
  lemma {:induction false} InsertsMember<K>(snap: map<K, DetailFields>, buf: seq<BufEntry<K>>, e: BufEntry<K>)
    ensures e in Inserts(snap, buf) <==> e in buf && QueuedForInsert(snap, e)
    decreases |buf|
  {
    if buf != [] {
      var b', x := buf[..|buf| - 1], buf[|buf| - 1];
      InsertsMember(snap, b', e);
      assert buf == b' + [x];
    }
  }

  /** An entry is among the queued updates exactly when it is in the buffer and queued for update. */
  lemma {:induction false} UpdatesMember<K>(snap: map<K, DetailFields>, buf: seq<BufEntry<K>>, e: BufEntry<K>)
    ensures e in Updates(snap, buf) <==> e in buf && QueuedForUpdate(snap, e)
    decreases |buf|
  {
    if buf != [] {
      var b', x := buf[..|buf| - 1], buf[|buf| - 1];
      UpdatesMember(snap, b', e);
      assert buf == b' + [x];
    }
  }

  // ---------------------------------------------------------------------
  // Properties of the plan

  /** Classification is entry by entry: the plan of `a + b` is the plans of `a` and `b` joined. */
  lemma PlanConcat<K>(snap: map<K, DetailFields>, a: seq<BufEntry<K>>, b: seq<BufEntry<K>>)
    ensures Inserts(snap, a + b) == Inserts(snap, a) + Inserts(snap, b)
    ensures Updates(snap, a + b) == Updates(snap, a) + Updates(snap, b)
    ensures KeptIds(snap, a + b) == KeptIds(snap, a) + KeptIds(snap, b)
  {
    InsertsConcat(snap, a, b);
    UpdatesConcat(snap, a, b);
    forall e | e in a + b
      ensures e in a || e in b
    {
    }
  }

  lemma {:induction false} InsertsConcat<K>(snap: map<K, DetailFields>, a: seq<BufEntry<K>>, b: seq<BufEntry<K>>)
    ensures Inserts(snap, a + b) == Inserts(snap, a) + Inserts(snap, b)
    decreases |b|
  {
    if b == [] {
      assert a + b == a;
    } else {
      var b', x := b[..|b| - 1], b[|b| - 1];
      assert b == b' + [x];
      assert a + b == (a + b') + [x];
      InsertsSnoc(snap, a + b', x);
      InsertsSnoc(snap, b', x);
      InsertsConcat(snap, a, b');
      var ia, ib, t := Inserts(snap, a), Inserts(snap, b'), if QueuedForInsert(snap, x) then [x] else [];
      assert (ia + ib) + t == ia + (ib + t);
    }
  }

  lemma InsertsSnoc<K>(snap: map<K, DetailFields>, s: seq<BufEntry<K>>, x: BufEntry<K>)
    ensures Inserts(snap, s + [x]) == Inserts(snap, s) + if QueuedForInsert(snap, x) then [x] else []
  {
    assert (s + [x])[..|s|] == s;
  }

  lemma {:induction false} UpdatesConcat<K>(snap: map<K, DetailFields>, a: seq<BufEntry<K>>, b: seq<BufEntry<K>>)
    ensures Updates(snap, a + b) == Updates(snap, a) + Updates(snap, b)
    decreases |b|
  {
    if b == [] {
      assert a + b == a;
    } else {
      var b', x := b[..|b| - 1], b[|b| - 1];
      assert b == b' + [x];
      assert a + b == (a + b') + [x];
      UpdatesSnoc(snap, a + b', x);
      UpdatesSnoc(snap, b', x);
      UpdatesConcat(snap, a, b');
    }
  }

  lemma UpdatesSnoc<K>(snap: map<K, DetailFields>, s: seq<BufEntry<K>>, x: BufEntry<K>)
    ensures Updates(snap, s + [x]) == Updates(snap, s) + if QueuedForUpdate(snap, x) then [x] else []
  {
    assert (s + [x])[..|s|] == s;
  }

  /** What one entry contributes: an insert iff new and meaningful, an update iff matched and changed. */
  lemma {:induction false} PlanOfOneEntry<K>(snap: map<K, DetailFields>, e: BufEntry<K>)
    ensures Inserts(snap, [e]) == if !Matched(snap, e) && Meaningful(e) then [e] else []
    ensures Updates(snap, [e]) == if Matched(snap, e) && HasChanged(snap[e.id.value], e) then [e] else []
    ensures KeptIds(snap, [e]) == if Matched(snap, e) then {e.id.value} else {}
  {
    assert [e][..0] == [];
  }

  /**
   * A stored id is deleted exactly when no buffer entry carries it; so an
   * entry whose id is in the snapshot keeps its row alive whether or not it changed.
   */
  lemma DeletesExactly<K>(snap: map<K, DetailFields>, buf: seq<BufEntry<K>>, k: K)
    ensures k in Deletes(snap, buf) <==> k in snap && forall i :: 0 <= i < |buf| ==> buf[i].id != Some(k)
  {
    if k in snap && k !in Deletes(snap, buf) {
      var e :| e in buf && Matched(snap, e) && e.id.value == k;
    }
  }

  /** Updated ids are stored ids that are not deleted; inserts carry no stored id. */
  lemma UpdatesAreNotDeleted<K>(snap: map<K, DetailFields>, buf: seq<BufEntry<K>>)
    ensures forall u :: u in Updates(snap, buf) ==>
      u.id.Some? && u.id.value in snap && u.id.value !in Deletes(snap, buf)
    ensures forall e :: e in Inserts(snap, buf) ==> !Matched(snap, e)
  {
    forall u | u in Updates(snap, buf)
      ensures u.id.Some? && u.id.value in snap && u.id.value !in Deletes(snap, buf)
    {
      UpdatesMember(snap, buf, u);
      assert u.id.value in KeptIds(snap, buf);
    }
    forall e | e in Inserts(snap, buf)
      ensures !Matched(snap, e)
    {
      InsertsMember(snap, buf, e);
    }
  }

  /** A buffer none of whose entries is queued yields no inserts and no updates. */
  lemma {:induction false} NothingQueued<K>(snap: map<K, DetailFields>, buf: seq<BufEntry<K>>)
    requires forall i :: 0 <= i < |buf| ==> !QueuedForInsert(snap, buf[i]) && !QueuedForUpdate(snap, buf[i])
    ensures Inserts(snap, buf) == [] && Updates(snap, buf) == []
    decreases |buf|
  {
    if buf != [] {
      NothingQueued(snap, buf[..|buf| - 1]);
    }
  }

  /**
   * A buffer holding exactly the snapshot's rows, in any order and with
   * every field equal, queues no insert, no update and no delete.
   */
  lemma {:induction false} UnchangedBufferIsNoOp<K>(snap: map<K, DetailFields>, buf: seq<BufEntry<K>>)
    requires forall i :: 0 <= i < |buf| ==>
      buf[i].id.Some? && buf[i].id.value in snap && snap[buf[i].id.value] == AsFields(buf[i])
    requires forall k :: k in snap ==> exists i :: 0 <= i < |buf| && buf[i].id == Some(k)
    ensures MakePlan(snap, buf) == Plan([], [], {})
  {
    NothingQueued(snap, buf);
    forall k | k in snap
      ensures k !in Deletes(snap, buf)
    {
      var i :| 0 <= i < |buf| && buf[i].id == Some(k);
      DeletesExactly(snap, buf, k);
    }
    assert Deletes(snap, buf) == {};
  }

  /**
   * When no buffer id is a key of the snapshot, every stored row is deleted,
   * nothing is updated, and every meaningful entry is inserted.
   */
  lemma {:induction false} NoMatchReplacesEverything<K>(snap: map<K, DetailFields>, buf: seq<BufEntry<K>>)
    requires forall i :: 0 <= i < |buf| ==> !Matched(snap, buf[i])
    ensures Inserts(snap, buf) == MeaningfulEntries(buf)
    ensures Updates(snap, buf) == []
    ensures Deletes(snap, buf) == snap.Keys
    decreases |buf|
  {
    if buf != [] {
      NoMatchReplacesEverything(snap, buf[..|buf| - 1]);
    }
    assert KeptIds(snap, buf) == {};
  }

  /** Every entry of the buffer meaningful: filtering keeps the buffer as it is. */
  lemma {:induction false} AllMeaningfulKept<K>(buf: seq<BufEntry<K>>)
    requires forall i :: 0 <= i < |buf| ==> Meaningful(buf[i])
    ensures MeaningfulEntries(buf) == buf
    decreases |buf|
  {
    if buf != [] {
      AllMeaningfulKept(buf[..|buf| - 1]);
      assert buf[..|buf| - 1] + [buf[|buf| - 1]] == buf;
    }
  }
}
