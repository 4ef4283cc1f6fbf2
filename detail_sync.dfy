/**
 * Pine Labs detail reconciliation (`updatePineLabsDetails`), single-detail
 * deletion (`deleteSinglePinelabsDetail`) and mapping deletion
 * (`deleteMapping`), each run against a store and an in-memory mirror.
 *
 * `Backend` stands for the two hosted tables the routines touch:
 * `pinelabs_details` (id -> row) and the `user_id` column of
 * `finance_mappings`, plus the counter the server draws new ids from.
 * `PineLabsView` holds the page's mirror `allPineLabsData`. Which store call
 * fails, if any, is the `Fault` argument: every call either succeeds with
 * the effect given here or fails with no effect.
 *
 * The functions `Reconcile`, `DeleteSingle` and `DeleteMappingEffect` give
 * each routine's whole effect on a `World` (both tables, the counter and the
 * mirror); the methods are proved to have exactly that effect, and
 * SyncProperties proves what the routines promise about it.
 */
module DetailSync {
  import opened JsValues
  import opened DetailPlan

  type UserId = string

  /** The signed-in user, and the role the role lookup returned for them. */
  datatype Actor = Actor(id: UserId, role: string)

  predicate IsAdmin(a: Actor) {
    a.role == "admin"
  }

  /** The two copies of the routines: pinelabs.js and index.js. */
  datatype Variant = PineLabsScript | IndexScript

  /** The store call that fails during one run, if any. `UpdateFails(k)` is the k-th update call. */
  datatype Fault =
    | NoFault
    | OwnerLookupFails
    | DetailLookupFails
    | SnapshotFails
    | DeleteFails
    | InsertFails
    | UpdateFails(k: nat)
    | MappingDeleteFails

  /** The errors the routines throw. */
  datatype SyncError =
    | MappingIdMissing
    | NotAuthenticated
    | MappingNotFound
    | DetailNotFound
    | NotOwner
    | SnapshotFailed
    | DeleteFailed
    | InsertFailed
    | UpdateFailed(id: Option<JsId>)
    | MappingDeleteFailed

  /** A stored `pinelabs_details` row (its id is the key it is stored under). */
  datatype StoredDetail = StoredDetail(fields: DetailFields, mappingId: int, userId: UserId)

  /** The columns an insert selects back: id, the four fields and `mapping_id`. */
  datatype DetailRecord = DetailRecord(id: JsId, fields: DetailFields, mappingId: int)

  /** The parent mapping's columns a mirror row carries for display (`finance_mappings`). */
  datatype Parent = Parent(storeName: Field, brand: Field)

  /** One row of the mirror `allPineLabsData`. */
  datatype MirrorRow = MirrorRow(id: JsId, fields: DetailFields, mappingId: int, parent: Option<Parent>)

  type DetailTable = map<JsId, StoredDetail>

  /** Both tables, the id counter and the mirror, as one value. */
  datatype World = World(details: DetailTable, owners: map<int, UserId>, nextId: int, mirror: seq<MirrorRow>)

  /** What a run returns and the world it leaves. */
  datatype Effect = Effect(result: Outcome<SyncError>, after: World)

  /**
   * The store's invariant: ids are the numbers the server assigned, all below
   * the next one it will assign, and every detail row belongs to a mapping
   * that exists (the `pinelabs_details_mapping_id_fkey` foreign key).
   */
  ghost predicate StoreInvariant(details: DetailTable, owners: map<int, UserId>, nextId: int) {
    forall k :: k in details ==> k.Num? && k.n < nextId && details[k].mappingId in owners
  }

  ghost predicate ValidWorld(w: World) {
    StoreInvariant(w.details, w.owners, w.nextId)
  }

  // ---------------------------------------------------------------------
  // Effects of the individual store calls

  /** `select(...).eq('mapping_id', m)`, keyed by id: the snapshot of one mapping's details. */
  function Snapshot(details: DetailTable, m: int): map<JsId, DetailFields> {
    map k | k in details && details[k].mappingId == m :: details[k].fields
  }

  /** The insert payload: each entry's four fields with `mapping_id` and `user_id`; the buffer id is not sent. */
  function NewRows(entries: seq<BufEntry<JsId>>, m: int, user: UserId): seq<StoredDetail> {
    seq(|entries|, i requires 0 <= i < |entries| => StoredDetail(AsFields(entries[i]), m, user))
  }

  /** The table after inserting `rows`; the server gives them the ids `first`, `first + 1`, ... in order. */
  function InsertAll(details: DetailTable, rows: seq<StoredDetail>, first: int): DetailTable
    decreases |rows|
  {
    if rows == [] then details
    else InsertAll(details, rows[..|rows| - 1], first)[Num(first + |rows| - 1) := rows[|rows| - 1]]
  }

  /** What the insert selects back. */
  function CreatedRecords(rows: seq<StoredDetail>, first: int): seq<DetailRecord> {
    seq(|rows|, i requires 0 <= i < |rows| => DetailRecord(Num(first + i), rows[i].fields, rows[i].mappingId))
  }

  /** `insertedData.map(item => ({...item, finance_mappings: null}))`. */
  function Unlinked(records: seq<DetailRecord>): seq<MirrorRow> {
    seq(|records|, i requires 0 <= i < |records| =>
      MirrorRow(records[i].id, records[i].fields, records[i].mappingId, None))
  }

  /**
   * `.update(fields).eq('id', u.id).eq('mapping_id', m)`: rewrites the four
   * fields of the row with that id, provided it belongs to mapping `m`.
   */
  function UpdateOne(details: DetailTable, u: BufEntry<JsId>, m: int): DetailTable {
    if u.id.Some? && u.id.value in details && details[u.id.value].mappingId == m
    then details[u.id.value := details[u.id.value].(fields := AsFields(u))]
    else details
  }

  /** The update calls of `ups`, in order. */
  function ApplyUpdates(details: DetailTable, ups: seq<BufEntry<JsId>>, m: int): DetailTable
    decreases |ups|
  {
    if ups == [] then details
    else UpdateOne(ApplyUpdates(details, ups[..|ups| - 1], m), ups[|ups| - 1], m)
  }

  /** `.delete().eq('mapping_id', m)`. */
  function DropMappingDetails(details: DetailTable, m: int): DetailTable {
    map k | k in details && details[k].mappingId != m :: details[k]
  }

  // ---------------------------------------------------------------------
  // Mirror operations

  /** `mirror.filter(pl => !ids.includes(pl.id))`. */
  function DropIds(mirror: seq<MirrorRow>, ids: set<JsId>): (r: seq<MirrorRow>)
    ensures |r| <= |mirror|
    ensures forall i :: 0 <= i < |r| ==> r[i] in mirror && r[i].id !in ids
    ensures forall i :: 0 <= i < |mirror| && mirror[i].id !in ids ==> mirror[i] in r
    decreases |mirror|
  {
    if mirror == [] then []
    else (if mirror[0].id in ids then [] else [mirror[0]]) + DropIds(mirror[1..], ids)
  }

  /** `mirror.filter(pl => pl.mapping_id !== m)`. */
  function DropMapping(mirror: seq<MirrorRow>, m: int): (r: seq<MirrorRow>)
    ensures |r| <= |mirror|
    ensures forall i :: 0 <= i < |r| ==> r[i] in mirror && r[i].mappingId != m
    ensures forall i :: 0 <= i < |mirror| && mirror[i].mappingId != m ==> mirror[i] in r
    decreases |mirror|
  {
    if mirror == [] then []
    else (if mirror[0].mappingId == m then [] else [mirror[0]]) + DropMapping(mirror[1..], m)
  }

  /** `mirror.findIndex(pl => pl.id === id)`: the first index holding the id, or -1. */
  function FirstIndex(mirror: seq<MirrorRow>, id: JsId): (i: int)
    ensures -1 <= i < |mirror|
    ensures i >= 0 ==> mirror[i].id == id
    ensures i >= 0 ==> forall j :: 0 <= j < i ==> mirror[j].id != id
    ensures i < 0 ==> forall j :: 0 <= j < |mirror| ==> mirror[j].id != id
    decreases |mirror|
  {
    if mirror == [] then -1
    else if mirror[0].id == id then 0
    else
      var i := FirstIndex(mirror[1..], id);
      if i < 0 then -1 else i + 1
  }

  /**
   * `allPineLabsData[index] = {...allPineLabsData[index], ...updateObject}`
   * at the first row with the entry's id. The index.js update object also
   * carries `mapping_id`.
   */
  function PatchFirst(mirror: seq<MirrorRow>, u: BufEntry<JsId>, m: int, variant: Variant): seq<MirrorRow> {
    if u.id.None? then mirror
    else
      var i := FirstIndex(mirror, u.id.value);
      if i < 0 then mirror
      else mirror[i := mirror[i].(fields := AsFields(u),
                                  mappingId := if variant == IndexScript then m else mirror[i].mappingId)]
  }

  /** The mirror patches of `ups`, in order. */
  function PatchAll(mirror: seq<MirrorRow>, ups: seq<BufEntry<JsId>>, m: int, variant: Variant): seq<MirrorRow>
    decreases |ups|
  {
    if ups == [] then mirror
    else PatchFirst(PatchAll(mirror, ups[..|ups| - 1], m, variant), ups[|ups| - 1], m, variant)
  }

  /** `allPineLabsData.splice(findIndex(pl => pl.id === id), 1)` when the index is not -1. */
  function RemoveFirst(mirror: seq<MirrorRow>, id: JsId): seq<MirrorRow> {
    var i := FirstIndex(mirror, id);
    if i < 0 then mirror else mirror[..i] + mirror[i + 1..]
  }

  // ---------------------------------------------------------------------
  // The routines' effects

  /**
   * The ownership check: an admin passes; anyone else must be the `user_id`
   * of mapping `m`, and a failed or empty lookup is an error.
   */
  function Authorize(w: World, m: int, a: Actor, fault: Fault): Outcome<SyncError> {
    if IsAdmin(a) then Pass
    else if fault == OwnerLookupFails || m !in w.owners then Fail(MappingNotFound)
    else if w.owners[m] != a.id then Fail(NotOwner)
    else Pass
  }

  /** After the delete call: rows gone from the table and, by id, from the mirror. */
  function AfterDeletes(w: World, dels: set<JsId>): World {
    if dels == {} then w
    else w.(details := w.details - dels, mirror := DropIds(w.mirror, dels))
  }

  /** After the insert call: new rows stored under fresh ids and appended to the mirror. */
  function AfterInserts(w: World, ins: seq<BufEntry<JsId>>, m: int, user: UserId): World {
    if ins == [] then w
    else
      var rows := NewRows(ins, m, user);
      w.(details := InsertAll(w.details, rows, w.nextId),
         nextId := w.nextId + |rows|,
         mirror := w.mirror + Unlinked(CreatedRecords(rows, w.nextId)))
  }

  /** Does the insert call fail? On a fault, or on a foreign-key violation (mapping `m` does not exist). */
  predicate InsertRejected(w: World, ins: seq<BufEntry<JsId>>, m: int, fault: Fault) {
    ins != [] && (fault == InsertFails || m !in w.owners)
  }

  /**
   * Apply a plan: deletes, then inserts, then the updates one by one. A
   * failed step stops the run; a failed insert or update puts back the
   * mirror as it was before the run (store changes already made stay).
   */
  function ApplyPlan(w: World, plan: Plan<JsId>, m: int, user: UserId, variant: Variant, fault: Fault): Effect {
    if plan.deletes != {} && fault == DeleteFails then Effect(Fail(DeleteFailed), w)
    else InsertPhase(w.mirror, AfterDeletes(w, plan.deletes), plan, m, user, variant, fault)
  }

  /** The insert and update steps, run on `w1`; `saved` is the mirror from before the run. */
  function InsertPhase(saved: seq<MirrorRow>, w1: World, plan: Plan<JsId>, m: int, user: UserId,
                       variant: Variant, fault: Fault): Effect
  {
    if InsertRejected(w1, plan.inserts, m, fault) then Effect(Fail(InsertFailed), w1.(mirror := saved))
    else UpdatePhase(saved, AfterInserts(w1, plan.inserts, m, user), plan.updates, m, variant, fault)
  }

  /** The update calls, run on `w2` one at a time; the first failure stops them and restores `saved`. */
  function UpdatePhase(saved: seq<MirrorRow>, w2: World, ups: seq<BufEntry<JsId>>, m: int,
                       variant: Variant, fault: Fault): Effect
  {
    if fault.UpdateFails? && fault.k < |ups| then
      Effect(Fail(UpdateFailed(ups[fault.k].id)),
             w2.(details := ApplyUpdates(w2.details, ups[..fault.k], m), mirror := saved))
    else
      Effect(Pass, w2.(details := ApplyUpdates(w2.details, ups, m), mirror := PatchAll(w2.mirror, ups, m, variant)))
  }

  /** The whole of `updatePineLabsDetails(mappingId, buffer)` run by `actor`. */
  function Reconcile(w: World, mappingId: Option<int>, buffer: seq<BufEntry<JsId>>, actor: Option<Actor>,
                     variant: Variant, fault: Fault): Effect
  {
    if mappingId.None? || mappingId.value == 0 then Effect(Fail(MappingIdMissing), w)
    else if actor.None? then Effect(Fail(NotAuthenticated), w)
    else if Authorize(w, mappingId.value, actor.value, fault).Fail? then
      Effect(Authorize(w, mappingId.value, actor.value, fault), w)
    else if fault == SnapshotFails then Effect(Fail(SnapshotFailed), w)
    else
      var m := mappingId.value;
      ApplyPlan(w, MakePlan(Snapshot(w.details, m), buffer), m, actor.value.id, variant, fault)
  }

  /**
   * The whole of `deleteSinglePinelabsDetail(detailId)` once confirmed: a
   * non-admin must own the detail's mapping. pinelabs.js splices out the
   * first mirror row with the id; index.js filters out every such row.
   */
  function DeleteSingle(w: World, detailId: JsId, actor: Option<Actor>, variant: Variant, fault: Fault): Effect {
    var allowed := DeleteAllowed(w, detailId, actor, fault);
    if allowed.Fail? then Effect(allowed, w)
    else if fault == DeleteFails then Effect(Fail(DeleteFailed), w)
    else
      Effect(Pass, w.(details := w.details - {detailId},
                      mirror := if variant == PineLabsScript then RemoveFirst(w.mirror, detailId)
                                else DropIds(w.mirror, {detailId})))
  }

  /**
   * The checks before a single-detail delete: someone is signed in and, for a
   * non-admin, the detail exists and its mapping is theirs.
   */
  function DeleteAllowed(w: World, detailId: JsId, actor: Option<Actor>, fault: Fault): Outcome<SyncError> {
    if actor.None? then Fail(NotAuthenticated)
    else if IsAdmin(actor.value) then Pass
    else if fault == DetailLookupFails || detailId !in w.details then Fail(DetailNotFound)
    else Authorize(w, w.details[detailId].mappingId, actor.value, fault)
  }

  /**
   * The whole of index.js `deleteMapping(id)` once confirmed: the mapping's
   * details are deleted, then the mapping; the mirror is filtered only after both succeed.
   */
  function DeleteMappingEffect(w: World, id: int, fault: Fault): Effect {
    if fault == DeleteFails then Effect(Fail(DeleteFailed), w)
    else
      var w1 := w.(details := DropMappingDetails(w.details, id));
      if fault == MappingDeleteFails then Effect(Fail(MappingDeleteFailed), w1)
      else Effect(Pass, w1.(owners := w.owners - {id}, mirror := DropMapping(w.mirror, id)))
  }

  // ---------------------------------------------------------------------
  // Facts about the table operations

  /** Inserted rows land under the fresh ids `first ..`; existing rows keep theirs. */
  lemma {:induction false} InsertAllAt(details: DetailTable, rows: seq<StoredDetail>, first: int, k: JsId)
    requires forall j :: j in details ==> j.Num? && j.n < first
    ensures k in InsertAll(details, rows, first) <==>
      k in details || (k.Num? && first <= k.n < first + |rows|)
    ensures k in details ==> InsertAll(details, rows, first)[k] == details[k]
    ensures k.Num? && first <= k.n < first + |rows| ==> InsertAll(details, rows, first)[k] == rows[k.n - first]
    decreases |rows|
  {
    if rows != [] {
      InsertAllAt(details, rows[..|rows| - 1], first, k);
    }
  }

  /** Updates neither add nor remove rows, nor move a row to another mapping or user. */
  lemma {:induction false} ApplyUpdatesKeepsRows(details: DetailTable, ups: seq<BufEntry<JsId>>, m: int)
    ensures ApplyUpdates(details, ups, m).Keys == details.Keys
    ensures forall k :: k in details ==>
      ApplyUpdates(details, ups, m)[k].mappingId == details[k].mappingId &&
      ApplyUpdates(details, ups, m)[k].userId == details[k].userId
    decreases |ups|
  {
    if ups != [] {
      ApplyUpdatesKeepsRows(details, ups[..|ups| - 1], m);
    }
  }

  /** Inserting under fresh ids for an existing mapping keeps the store invariant. */
  lemma InsertKeepsInvariant(w: World, ins: seq<BufEntry<JsId>>, m: int, user: UserId)
    requires ValidWorld(w) && (ins == [] || m in w.owners)
    ensures ValidWorld(AfterInserts(w, ins, m, user))
  {
    if ins != [] {
      var rows := NewRows(ins, m, user);
      var d := InsertAll(w.details, rows, w.nextId);
      forall k | k in d
        ensures k.Num? && k.n < w.nextId + |rows| && d[k].mappingId in w.owners
      {
        InsertAllAt(w.details, rows, w.nextId, k);
      }
    }
  }

  /** The update calls keep the store invariant, whether or not one fails. */
  lemma UpdatePhaseKeepsInvariant(saved: seq<MirrorRow>, w2: World, ups: seq<BufEntry<JsId>>, m: int,
                                  variant: Variant, fault: Fault)
    requires ValidWorld(w2)
    ensures ValidWorld(UpdatePhase(saved, w2, ups, m, variant, fault).after)
  {
    if fault.UpdateFails? && fault.k < |ups| {
      ApplyUpdatesKeepsRows(w2.details, ups[..fault.k], m);
    } else {
      ApplyUpdatesKeepsRows(w2.details, ups, m);
    }
  }

  /** Applying a plan keeps the store invariant. */
  lemma ApplyPlanKeepsInvariant(w: World, plan: Plan<JsId>, m: int, user: UserId, variant: Variant, fault: Fault)
    requires ValidWorld(w)
    ensures ValidWorld(ApplyPlan(w, plan, m, user, variant, fault).after)
  {
    if !(plan.deletes != {} && fault == DeleteFails) {
      var w1 := AfterDeletes(w, plan.deletes);
      assert ValidWorld(w1);
      if !InsertRejected(w1, plan.inserts, m, fault) {
        InsertKeepsInvariant(w1, plan.inserts, m, user);
        UpdatePhaseKeepsInvariant(w.mirror, AfterInserts(w1, plan.inserts, m, user), plan.updates, m, variant, fault);
      }
    }
  }

  /** Every run of the reconciliation keeps the store invariant. */
  lemma ReconcileKeepsInvariant(w: World, mappingId: Option<int>, buffer: seq<BufEntry<JsId>>,
                                actor: Option<Actor>, variant: Variant, fault: Fault)
    requires ValidWorld(w)
    ensures ValidWorld(Reconcile(w, mappingId, buffer, actor, variant, fault).after)
  {
    if mappingId.Some? && mappingId.value != 0 && actor.Some? {
      var m := mappingId.value;
      ApplyPlanKeepsInvariant(w, MakePlan(Snapshot(w.details, m), buffer), m, actor.value.id, variant, fault);
    }
  }

  /** Deleting one detail keeps the store invariant. */
  lemma DeleteSingleKeepsInvariant(w: World, detailId: JsId, actor: Option<Actor>, variant: Variant, fault: Fault)
    requires ValidWorld(w)
    ensures ValidWorld(DeleteSingle(w, detailId, actor, variant, fault).after)
  {
  }

  // ---------------------------------------------------------------------
  // The hosted tables

  class Backend {
    var details: DetailTable
    var owners: map<int, UserId>
    var nextId: int

    ghost predicate Valid()
      reads this
    {
      StoreInvariant(details, owners, nextId)
    }

    constructor (details: DetailTable, owners: map<int, UserId>, nextId: int)
      requires StoreInvariant(details, owners, nextId)
      ensures Valid()
      ensures this.details == details && this.owners == owners && this.nextId == nextId
    {
      this.details, this.owners, this.nextId := details, owners, nextId;
    }

    /** `from('finance_mappings').select('user_id').eq('id', m).single()`. */
    method LookupOwner(m: int, fails: bool) returns (found: bool, owner: UserId)
      ensures found <==> !fails && m in owners
      ensures found ==> owner == owners[m]
    {
      found := !fails && m in owners;
      owner := if found then owners[m] else "";
    }

    /** `from('pinelabs_details').select('mapping_id').eq('id', id).single()`. */
    method LookupDetailMapping(id: JsId, fails: bool) returns (found: bool, m: int)
      ensures found <==> !fails && id in details
      ensures found ==> m == details[id].mappingId
    {
      found := !fails && id in details;
      m := if found then details[id].mappingId else 0;
    }

    /** `from('pinelabs_details').select(...).eq('mapping_id', m)`, keyed by id. */
    method FetchSnapshot(m: int, fails: bool) returns (ok: bool, snap: map<JsId, DetailFields>)
      ensures ok == !fails
      ensures ok ==> snap == Snapshot(details, m)
    {
      ok := !fails;
      snap := if ok then Snapshot(details, m) else map[];
    }

    /** `from('pinelabs_details').delete().in('id', ids)`. */
    method DeleteDetails(ids: set<JsId>, fails: bool) returns (ok: bool)
      modifies this
      ensures ok == !fails
      ensures details == if ok then old(details) - ids else old(details)
      ensures owners == old(owners) && nextId == old(nextId)
    {
      ok := !fails;
      if ok {
        details := details - ids;
      }
    }

    /**
     * `from('pinelabs_details').insert(rows).select(...)`. Rejected on a fault
     * or when the mapping of a row does not exist (the foreign key).
     */
    method InsertDetails(rows: seq<StoredDetail>, m: int, fails: bool) returns (ok: bool, created: seq<DetailRecord>)
      requires forall i :: 0 <= i < |rows| ==> rows[i].mappingId == m
      modifies this
      ensures ok == (!fails && m in old(owners))
      ensures ok ==> details == InsertAll(old(details), rows, old(nextId)) && nextId == old(nextId) + |rows|
      ensures ok ==> created == CreatedRecords(rows, old(nextId))
      ensures !ok ==> details == old(details) && nextId == old(nextId)
      ensures owners == old(owners)
    {
      ok := !fails && m in owners;
      created := [];
      if ok {
        created := CreatedRecords(rows, nextId);
        details := InsertAll(details, rows, nextId);
        nextId := nextId + |rows|;
      }
    }

    /** `from('pinelabs_details').update(fields).eq('id', u.id).eq('mapping_id', m)`. */
    method UpdateDetail(u: BufEntry<JsId>, m: int, fails: bool) returns (ok: bool)
      modifies this
      ensures ok == !fails
      ensures details == if ok then UpdateOne(old(details), u, m) else old(details)
      ensures owners == old(owners) && nextId == old(nextId)
    {
      ok := !fails;
      if ok {
        details := UpdateOne(details, u, m);
      }
    }

    /** `from('pinelabs_details').delete().eq('id', id)`. */
    method DeleteDetail(id: JsId, fails: bool) returns (ok: bool)
      modifies this
      ensures ok == !fails
      ensures details == if ok then old(details) - {id} else old(details)
      ensures owners == old(owners) && nextId == old(nextId)
    {
      ok := !fails;
      if ok {
        details := details - {id};
      }
    }

    /** `from('pinelabs_details').delete().eq('mapping_id', m)`. */
    method DeleteDetailsOfMapping(m: int, fails: bool) returns (ok: bool)
      modifies this
      ensures ok == !fails
      ensures details == if ok then DropMappingDetails(old(details), m) else old(details)
      ensures owners == old(owners) && nextId == old(nextId)
    {
      ok := !fails;
      if ok {
        details := DropMappingDetails(details, m);
      }
    }

    /** `from('finance_mappings').delete().eq('id', m)`. */
    method DeleteMappingRow(m: int, fails: bool) returns (ok: bool)
      modifies this
      ensures ok == !fails
      ensures owners == if ok then old(owners) - {m} else old(owners)
      ensures details == old(details) && nextId == old(nextId)
    {
      ok := !fails;
      if ok {
        owners := owners - {m};
      }
    }
  }

  // ---------------------------------------------------------------------
  // The page's mirror and the routines

  class PineLabsView {
    const backend: Backend
    /** `allPineLabsData`. */
    var mirror: seq<MirrorRow>

    ghost predicate Valid()
      reads this, backend
    {
      backend.Valid()
    }

    function Current(): World
      reads this, backend
    {
      World(backend.details, backend.owners, backend.nextId, mirror)
    }

    constructor (backend: Backend, mirror: seq<MirrorRow>)
      requires backend.Valid()
      ensures Valid()
      ensures this.backend == backend && this.mirror == mirror
    {
      this.backend, this.mirror := backend, mirror;
    }

    /**
     * The classification loop: one pass over the buffer pushing inserts and
     * updates, then the ids to delete.
     */
    static method Classify(snap: map<JsId, DetailFields>, buffer: seq<BufEntry<JsId>>)
      returns (inserts: seq<BufEntry<JsId>>, updates: seq<BufEntry<JsId>>, deletes: set<JsId>)
      ensures Plan(inserts, updates, deletes) == MakePlan(snap, buffer)
    {
      inserts, updates := [], [];
      var i := 0;
      while i < |buffer|
        invariant 0 <= i <= |buffer|
        invariant inserts == Inserts(snap, buffer[..i])
        invariant updates == Updates(snap, buffer[..i])
      {
        var e := buffer[i];
        assert buffer[..i + 1][..i] == buffer[..i];
        if e.id.None? || e.id.value !in snap {
          if Meaningful(e) {
            inserts := inserts + [e];
          }
        } else if HasChanged(snap[e.id.value], e) {
          updates := updates + [e];
        }
        i := i + 1;
      }
      assert buffer[..i] == buffer;
      var kept := set e | e in buffer && Matched(snap, e) :: e.id.value;
      deletes := snap.Keys - kept;
    }

    /** `updatePineLabsDetails(mappingId, buffer)` as run by `actor`. */
    method UpdatePineLabsDetails(mappingId: Option<int>, buffer: seq<BufEntry<JsId>>, actor: Option<Actor>,
                                 variant: Variant, fault: Fault) returns (r: Outcome<SyncError>)
      requires Valid()
      modifies this, backend
      ensures Valid()
      ensures Effect(r, Current()) == Reconcile(old(Current()), mappingId, buffer, actor, variant, fault)
    {
      if mappingId.None? || mappingId.value == 0 {
        return Fail(MappingIdMissing);
      }
      if actor.None? {
        return Fail(NotAuthenticated);
      }
      var m, user := mappingId.value, actor.value;
      if !IsAdmin(user) {
        var found, owner := backend.LookupOwner(m, fault == OwnerLookupFails);
        if !found {
          return Fail(MappingNotFound);
        }
        if owner != user.id {
          return Fail(NotOwner);
        }
      }
      var fetched, snap := backend.FetchSnapshot(m, fault == SnapshotFails);
      if !fetched {
        return Fail(SnapshotFailed);
      }
      var inserts, updates, deletes := Classify(snap, buffer);
      r := RunPlan(inserts, updates, deletes, m, user.id, variant, fault);
    }

    /** The delete, insert and update steps of `updatePineLabsDetails` for a classified buffer. */
    method RunPlan(inserts: seq<BufEntry<JsId>>, updates: seq<BufEntry<JsId>>, deletes: set<JsId>,
                   m: int, user: UserId, variant: Variant, fault: Fault) returns (r: Outcome<SyncError>)
      requires Valid()
      modifies this, backend
      ensures Valid()
      ensures Effect(r, Current()) == ApplyPlan(old(Current()), Plan(inserts, updates, deletes), m, user, variant, fault)
    {
      ghost var w := Current();
      ApplyPlanKeepsInvariant(w, Plan(inserts, updates, deletes), m, user, variant, fault);
      var saved := mirror;
      if deletes != {} {
        var ok := backend.DeleteDetails(deletes, fault == DeleteFails);
        if !ok {
          return Fail(DeleteFailed);
        }
        mirror := DropIds(mirror, deletes);
      }
      assert Current() == AfterDeletes(w, deletes);
      r := RunInserts(saved, Plan(inserts, updates, deletes), m, user, variant, fault);
    }

    /** The insert step of `updatePineLabsDetails`, then the updates. */
    method RunInserts(saved: seq<MirrorRow>, plan: Plan<JsId>, m: int, user: UserId, variant: Variant, fault: Fault)
      returns (r: Outcome<SyncError>)
      requires Valid()
      modifies this, backend
      ensures Valid()
      ensures Effect(r, Current()) == InsertPhase(saved, old(Current()), plan, m, user, variant, fault)
    {
      ghost var w1 := Current();
      if plan.inserts != [] {
        var ok, created := backend.InsertDetails(NewRows(plan.inserts, m, user), m, fault == InsertFails);
        if !ok {
          mirror := saved;
          return Fail(InsertFailed);
        }
        mirror := mirror + Unlinked(created);
        InsertKeepsInvariant(w1, plan.inserts, m, user);
      }
      assert Current() == AfterInserts(w1, plan.inserts, m, user);
      r := RunUpdates(saved, plan.updates, m, variant, fault);
    }

    /** The update loop of `updatePineLabsDetails`: one update call and one mirror patch per entry. */
    method RunUpdates(saved: seq<MirrorRow>, updates: seq<BufEntry<JsId>>, m: int, variant: Variant, fault: Fault)
      returns (r: Outcome<SyncError>)
      requires Valid()
      modifies this, backend
      ensures Valid()
      ensures Effect(r, Current()) == UpdatePhase(saved, old(Current()), updates, m, variant, fault)
    {
      ghost var w2 := Current();
      UpdatePhaseKeepsInvariant(saved, w2, updates, m, variant, fault);
      var k := 0;
      while k < |updates|
        invariant 0 <= k <= |updates|
        invariant backend.details == ApplyUpdates(w2.details, updates[..k], m)
        invariant mirror == PatchAll(w2.mirror, updates[..k], m, variant)
        invariant backend.owners == w2.owners && backend.nextId == w2.nextId
        invariant forall j :: 0 <= j < k ==> fault != UpdateFails(j)
      {
        assert updates[..k + 1][..k] == updates[..k];
        var ok := backend.UpdateDetail(updates[k], m, fault == UpdateFails(k));
        if !ok {
          mirror := saved;
          return Fail(UpdateFailed(updates[k].id));
        }
        mirror := PatchFirst(mirror, updates[k], m, variant);
        k := k + 1;
      }
      assert updates[..k] == updates;
      return Pass;
    }

    /** `deleteSinglePinelabsDetail(detailId)` once the user has confirmed. */
    method DeleteSinglePinelabsDetail(detailId: JsId, actor: Option<Actor>, variant: Variant, fault: Fault)
      returns (r: Outcome<SyncError>)
      requires Valid()
      modifies this, backend
      ensures Valid()
      ensures Effect(r, Current()) == DeleteSingle(old(Current()), detailId, actor, variant, fault)
    {
      r := CheckDeleteAllowed(detailId, actor, fault);
      if r.Fail? {
        return;
      }
      ghost var w := Current();
      var ok := backend.DeleteDetail(detailId, fault == DeleteFails);
      if !ok {
        return Fail(DeleteFailed);
      }
      assert Current() == w.(details := w.details - {detailId});
      if variant == PineLabsScript {
        var i := FirstIndex(mirror, detailId);
        if i > -1 {
          mirror := mirror[..i] + mirror[i + 1..];
        }
        assert mirror == RemoveFirst(w.mirror, detailId);
      } else {
        mirror := DropIds(mirror, {detailId});
      }
    }

    /** The sign-in and ownership checks of `deleteSinglePinelabsDetail`. */
    method CheckDeleteAllowed(detailId: JsId, actor: Option<Actor>, fault: Fault) returns (r: Outcome<SyncError>)
      ensures r == DeleteAllowed(Current(), detailId, actor, fault)
    {
      if actor.None? {
        return Fail(NotAuthenticated);
      }
      var user := actor.value;
      if IsAdmin(user) {
        return Pass;
      }
      var found, m := backend.LookupDetailMapping(detailId, fault == DetailLookupFails);
      if !found {
        return Fail(DetailNotFound);
      }
      var mapped, owner := backend.LookupOwner(m, fault == OwnerLookupFails);
      if !mapped {
        return Fail(MappingNotFound);
      }
      if owner != user.id {
        return Fail(NotOwner);
      }
      return Pass;
    }

    /** index.js `deleteMapping(id)` once the user has confirmed. */
    method DeleteMapping(id: int, fault: Fault) returns (r: Outcome<SyncError>)
      requires Valid()
      modifies this, backend
      ensures Valid()
      ensures Effect(r, Current()) == DeleteMappingEffect(old(Current()), id, fault)
    {
      var ok := backend.DeleteDetailsOfMapping(id, fault == DeleteFails);
      if !ok {
        return Fail(DeleteFailed);
      }
      ok := backend.DeleteMappingRow(id, fault == MappingDeleteFails);
      if !ok {
        return Fail(MappingDeleteFailed);
      }
      mirror := DropMapping(mirror, id);
      return Pass;
    }
  }
}
