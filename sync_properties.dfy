/**
 * What the reconciliation and the two deletions promise, proved about their
 * effect functions: who may change what, what a failed run leaves behind,
 * and, for a run that succeeds, exactly which rows the store and the mirror
 * then hold.
 */
module SyncProperties {
  import opened JsValues
  import opened DetailPlan
  import opened DetailSync

  /** Mapping `m` exists and `a` may edit it: an admin, or the mapping's owner. */
  predicate MayEdit(w: World, m: int, a: Actor) {
    m != 0 && m in w.owners && (IsAdmin(a) || w.owners[m] == a.id)
  }

  /** No two buffer entries carry the same id (each form row renders one stored row). */
  predicate DistinctIds<K(==)>(buffer: seq<BufEntry<K>>) {
    forall i, j :: 0 <= i < |buffer| && 0 <= j < |buffer| && i != j && buffer[i].id.Some? ==>
      buffer[i].id != buffer[j].id
  }

  /** An entry no update can target: it is used where a lemma's entry argument does not matter. */
  const NoEntry: BufEntry<JsId> := BufEntry(None, "", "", "", "")

  /** Some update entry carries id `k`. */
  predicate Targets(ups: seq<BufEntry<JsId>>, k: JsId) {
    exists j :: 0 <= j < |ups| && ups[j].id == Some(k)
  }

  /** Every update entry carrying id `k` is `e`. */
  predicate OnlyEntryFor(ups: seq<BufEntry<JsId>>, k: JsId, e: BufEntry<JsId>) {
    forall j :: 0 <= j < |ups| && ups[j].id == Some(k) ==> ups[j] == e
  }

  // ---------------------------------------------------------------------
  // The update calls, row by row

  /**
   * After the update calls, a row not targeted, or belonging to another
   * mapping, is as it was; a targeted row of mapping `m` holds the fields of
   * the entry that targets it.
   */
  lemma {:induction false} ApplyUpdatesAt(d: DetailTable, ups: seq<BufEntry<JsId>>, m: int, k: JsId, e: BufEntry<JsId>)
    requires k in d
    ensures k in ApplyUpdates(d, ups, m)
    ensures !Targets(ups, k) || d[k].mappingId != m ==> ApplyUpdates(d, ups, m)[k] == d[k]
    ensures Targets(ups, k) && OnlyEntryFor(ups, k, e) && d[k].mappingId == m ==>
      ApplyUpdates(d, ups, m)[k] == d[k].(fields := AsFields(e))
    decreases |ups|
  {
    if ups != [] {
      var init := ups[..|ups| - 1];
      ApplyUpdatesAt(d, init, m, k, e);
      assert forall j :: 0 <= j < |init| ==> init[j] == ups[j];
      if Targets(init, k) {
        var j :| 0 <= j < |init| && init[j].id == Some(k);
        assert ups[j].id == Some(k);
      }
    }
  }

  /** A key no update entry carries keeps its row through the update calls. */
  lemma ApplyUpdatesElsewhere(d: DetailTable, ups: seq<BufEntry<JsId>>, m: int, k: JsId)
    requires k in d && !Targets(ups, k)
    ensures k in ApplyUpdates(d, ups, m) && ApplyUpdates(d, ups, m)[k] == d[k]
  {
    ApplyUpdatesAt(d, ups, m, k, NoEntry);
  }

  // ---------------------------------------------------------------------
  // The mirror patches, row by row

  /** Two mirrors with the same ids at every index have the same first index for any id. */
  lemma {:induction false} FirstIndexSameIds(a: seq<MirrorRow>, b: seq<MirrorRow>, id: JsId)
    requires |a| == |b| && forall i :: 0 <= i < |a| ==> a[i].id == b[i].id
    ensures FirstIndex(a, id) == FirstIndex(b, id)
    decreases |a|
  {
    if a != [] {
      FirstIndexSameIds(a[1..], b[1..], id);
    }
  }

  /** The mirror patches keep the mirror's length and every row's id and parent. */
  lemma {:induction false} PatchAllShape(mirror: seq<MirrorRow>, ups: seq<BufEntry<JsId>>, m: int, variant: Variant)
    ensures |PatchAll(mirror, ups, m, variant)| == |mirror|
    ensures forall j :: 0 <= j < |mirror| ==>
      PatchAll(mirror, ups, m, variant)[j].id == mirror[j].id &&
      PatchAll(mirror, ups, m, variant)[j].parent == mirror[j].parent
    decreases |ups|
  {
    if ups != [] {
      PatchAllShape(mirror, ups[..|ups| - 1], m, variant);
    }
  }

  /** One patch changes row `i` only when `i` is the first row with the entry's id. */
  lemma PatchFirstAt(before: seq<MirrorRow>, u: BufEntry<JsId>, m: int, variant: Variant, i: int)
    requires 0 <= i < |before|
    ensures |PatchFirst(before, u, m, variant)| == |before|
    ensures u.id != Some(before[i].id) || i != FirstIndex(before, before[i].id) ==>
      PatchFirst(before, u, m, variant)[i] == before[i]
    ensures u.id == Some(before[i].id) && i == FirstIndex(before, before[i].id) ==>
      PatchFirst(before, u, m, variant)[i] ==
        before[i].(fields := AsFields(u), mappingId := if variant == IndexScript then m else before[i].mappingId)
  {
  }

  /**
   * The mirror patches change only the first row with a targeted id, and it
   * takes the fields of the entry that targets it (and, in index.js, the
   * mapping id).
   */
  lemma {:induction false} PatchAllAt(mirror: seq<MirrorRow>, ups: seq<BufEntry<JsId>>, m: int, variant: Variant,
                                      i: int, e: BufEntry<JsId>)
    requires 0 <= i < |mirror|
    ensures |PatchAll(mirror, ups, m, variant)| == |mirror|
    ensures !Targets(ups, mirror[i].id) || i != FirstIndex(mirror, mirror[i].id) ==>
      PatchAll(mirror, ups, m, variant)[i] == mirror[i]
    ensures Targets(ups, mirror[i].id) && OnlyEntryFor(ups, mirror[i].id, e) && i == FirstIndex(mirror, mirror[i].id) ==>
      PatchAll(mirror, ups, m, variant)[i].fields == AsFields(e) &&
      PatchAll(mirror, ups, m, variant)[i].mappingId == (if variant == IndexScript then m else mirror[i].mappingId)
    decreases |ups|
  {
    PatchAllShape(mirror, ups, m, variant);
    if ups != [] {
      var init, u := ups[..|ups| - 1], ups[|ups| - 1];
      var before := PatchAll(mirror, init, m, variant);
      var k := mirror[i].id;
      PatchAllAt(mirror, init, m, variant, i, e);
      PatchAllShape(mirror, init, m, variant);
      FirstIndexSameIds(before, mirror, k);
      PatchFirstAt(before, u, m, variant, i);
      if Targets(init, k) {
        var j :| 0 <= j < |init| && init[j].id == Some(k);
        assert ups[j] == init[j];
      }
      if OnlyEntryFor(ups, k, e) {
        forall j | 0 <= j < |init| && init[j].id == Some(k)
          ensures init[j] == e
        {
          assert ups[j] == init[j];
        }
      }
      if Targets(ups, k) && u.id != Some(k) {
        var j :| 0 <= j < |ups| && ups[j].id == Some(k);
        assert j < |init| && init[j] == ups[j];
      }
    }
  }

  // ---------------------------------------------------------------------
  // Who may change what, and what a failed run leaves

  /** A non-admin who does not own the mapping changes nothing, whatever the buffer holds. */
  lemma NonOwnerChangesNothing(w: World, m: int, buffer: seq<BufEntry<JsId>>, a: Actor, variant: Variant, fault: Fault)
    requires !IsAdmin(a) && (m !in w.owners || w.owners[m] != a.id)
    ensures Reconcile(w, Some(m), buffer, Some(a), variant, fault).result.Fail?
    ensures Reconcile(w, Some(m), buffer, Some(a), variant, fault).after == w
  {
  }

  /** The checks before any write (id, sign-in, ownership, snapshot) and a failed delete change nothing. */
  lemma EarlyFailureChangesNothing(w: World, mappingId: Option<int>, buffer: seq<BufEntry<JsId>>,
                                   actor: Option<Actor>, variant: Variant, fault: Fault)
    ensures var run := Reconcile(w, mappingId, buffer, actor, variant, fault);
      (run.result in {Fail(MappingIdMissing), Fail(NotAuthenticated), Fail(MappingNotFound),
                      Fail(NotOwner), Fail(SnapshotFailed), Fail(DeleteFailed)}) ==> run.after == w
  {
  }

  /**
   * A failed run leaves the mirror exactly as it was before the run, and no
   * run touches the mappings table.
   */
  lemma FailedRunKeepsMirror(w: World, mappingId: Option<int>, buffer: seq<BufEntry<JsId>>,
                             actor: Option<Actor>, variant: Variant, fault: Fault)
    ensures var run := Reconcile(w, mappingId, buffer, actor, variant, fault);
      (run.result.Fail? ==> run.after.mirror == w.mirror) && run.after.owners == w.owners
  {
    if mappingId.Some? && mappingId.value != 0 && actor.Some? {
      var m := mappingId.value;
      FailedPlanKeepsMirror(w, MakePlan(Snapshot(w.details, m), buffer), m, actor.value.id, variant, fault);
    }
  }

  lemma FailedPlanKeepsMirror(w: World, plan: Plan<JsId>, m: int, user: UserId, variant: Variant, fault: Fault)
    ensures var run := ApplyPlan(w, plan, m, user, variant, fault);
      (run.result.Fail? ==> run.after.mirror == w.mirror) && run.after.owners == w.owners
  {
  }

  /**
   * The steps are not one transaction: when the insert fails, the deletes
   * already made stay made and no row is inserted.
   */
  lemma InsertFailureKeepsDeletes(w: World, m: int, buffer: seq<BufEntry<JsId>>, a: Actor, variant: Variant)
    requires MayEdit(w, m, a)
    ensures var run := Reconcile(w, Some(m), buffer, Some(a), variant, InsertFails);
      var plan := MakePlan(Snapshot(w.details, m), buffer);
      run.result == (if plan.inserts != [] then Fail(InsertFailed) else Pass) &&
      (plan.inserts != [] ==> run.after.details == w.details - plan.deletes && run.after.nextId == w.nextId)
  {
  }

  // ---------------------------------------------------------------------
  // A successful run

  /** Someone who may edit the mapping, with no failing store call, succeeds. */
  lemma ReconcileSucceeds(w: World, m: int, buffer: seq<BufEntry<JsId>>, a: Actor, variant: Variant)
    requires MayEdit(w, m, a)
    ensures Reconcile(w, Some(m), buffer, Some(a), variant, NoFault).result == Pass
    ensures Reconcile(w, Some(m), buffer, Some(a), variant, NoFault).after.nextId ==
      w.nextId + |MakePlan(Snapshot(w.details, m), buffer).inserts|
  {
  }

  /** The store after a successful run, before the update calls. */
  function Staged(w: World, plan: Plan<JsId>, m: int, user: UserId): DetailTable {
    InsertAll(w.details - plan.deletes, NewRows(plan.inserts, m, user), w.nextId)
  }

  /** The mirror after a successful run, before the patches. */
  function StagedMirror(w: World, plan: Plan<JsId>, m: int, user: UserId): seq<MirrorRow> {
    DropIds(w.mirror, plan.deletes) + Unlinked(CreatedRecords(NewRows(plan.inserts, m, user), w.nextId))
  }

  /** With the checks passed, a run applies the plan of the mapping's snapshot. */
  lemma ReconcileIsApplyPlan(w: World, m: int, buffer: seq<BufEntry<JsId>>, a: Actor, variant: Variant, fault: Fault)
    requires MayEdit(w, m, a) && fault != OwnerLookupFails && fault != SnapshotFails
    ensures Reconcile(w, Some(m), buffer, Some(a), variant, fault) ==
      ApplyPlan(w, MakePlan(Snapshot(w.details, m), buffer), m, a.id, variant, fault)
  {
  }

  /** A plan applied with no failing call: deletes, then inserts, then updates, on store and mirror alike. */
  lemma ApplyPlanSucceeds(w: World, plan: Plan<JsId>, m: int, user: UserId, variant: Variant)
    requires m in w.owners
    ensures ApplyPlan(w, plan, m, user, variant, NoFault) ==
      Effect(Pass, World(ApplyUpdates(Staged(w, plan, m, user), plan.updates, m), w.owners,
                         w.nextId + |plan.inserts|, PatchAll(StagedMirror(w, plan, m, user), plan.updates, m, variant)))
  {
    var w1 := AfterDeletes(w, plan.deletes);
    DeleteStep(w, plan.deletes);
    InsertStep(w1, plan.inserts, m, user);
  }

  /** The delete step, written uniformly: with no ids it changes nothing either way. */
  lemma DeleteStep(w: World, dels: set<JsId>)
    ensures AfterDeletes(w, dels) == w.(details := w.details - dels, mirror := DropIds(w.mirror, dels))
  {
    if dels == {} {
      assert w.details - dels == w.details;
      DropIdsNone(w.mirror, dels);
    }
  }

  /** The insert step, written uniformly: with no entries it changes nothing either way. */
  lemma InsertStep(w: World, ins: seq<BufEntry<JsId>>, m: int, user: UserId)
    ensures var rows := NewRows(ins, m, user);
      AfterInserts(w, ins, m, user) ==
        w.(details := InsertAll(w.details, rows, w.nextId), nextId := w.nextId + |ins|,
           mirror := w.mirror + Unlinked(CreatedRecords(rows, w.nextId)))
  {
    if ins == [] {
      var rows := NewRows(ins, m, user);
      assert rows == [];
      assert Unlinked(CreatedRecords(rows, w.nextId)) == [];
      assert w.mirror + [] == w.mirror;
    }
  }

  lemma StoreAfterSuccess(w: World, m: int, buffer: seq<BufEntry<JsId>>, a: Actor, variant: Variant)
    requires MayEdit(w, m, a)
    ensures var plan := MakePlan(Snapshot(w.details, m), buffer);
      Reconcile(w, Some(m), buffer, Some(a), variant, NoFault).after.details ==
        ApplyUpdates(Staged(w, plan, m, a.id), plan.updates, m)
  {
    ReconcileIsApplyPlan(w, m, buffer, a, variant, NoFault);
    ApplyPlanSucceeds(w, MakePlan(Snapshot(w.details, m), buffer), m, a.id, variant);
  }

  lemma MirrorAfterSuccess(w: World, m: int, buffer: seq<BufEntry<JsId>>, a: Actor, variant: Variant)
    requires MayEdit(w, m, a)
    ensures var plan := MakePlan(Snapshot(w.details, m), buffer);
      Reconcile(w, Some(m), buffer, Some(a), variant, NoFault).after.mirror ==
        PatchAll(StagedMirror(w, plan, m, a.id), plan.updates, m, variant)
  {
    ReconcileIsApplyPlan(w, m, buffer, a, variant, NoFault);
    ApplyPlanSucceeds(w, MakePlan(Snapshot(w.details, m), buffer), m, a.id, variant);
  }

  /**
   * The stored rows of mapping `m` after a successful run: a row survives
   * exactly when a buffer entry carries its id, and then holds that entry's
   * four fields.
   */
  lemma {:induction false} StoredRowsAfterSuccess(w: World, m: int, buffer: seq<BufEntry<JsId>>, a: Actor,
                                                  variant: Variant, k: JsId)
    requires ValidWorld(w) && MayEdit(w, m, a) && DistinctIds(buffer)
    requires k in w.details && w.details[k].mappingId == m
    ensures var after := Reconcile(w, Some(m), buffer, Some(a), variant, NoFault).after.details;
      (k in after <==> exists i :: 0 <= i < |buffer| && buffer[i].id == Some(k)) &&
      forall i :: 0 <= i < |buffer| && buffer[i].id == Some(k) ==>
        after[k] == w.details[k].(fields := AsFields(buffer[i]))
  {
    var snap := Snapshot(w.details, m);
    var plan := MakePlan(snap, buffer);
    var staged := Staged(w, plan, m, a.id);
    StoreAfterSuccess(w, m, buffer, a, variant);
    DeletesExactly(snap, buffer, k);
    InsertAllAt(w.details - plan.deletes, NewRows(plan.inserts, m, a.id), w.nextId, k);
    ApplyUpdatesKeepsRows(staged, plan.updates, m);
    if exists i :: 0 <= i < |buffer| && buffer[i].id == Some(k) {
      var i :| 0 <= i < |buffer| && buffer[i].id == Some(k);
      var e := buffer[i];
      assert k in staged && staged[k] == w.details[k];
      assert OnlyEntryFor(plan.updates, k, e) by {
        forall j | 0 <= j < |plan.updates| && plan.updates[j].id == Some(k)
          ensures plan.updates[j] == e
        {
          assert plan.updates[j] in plan.updates;
          UpdatesMember(snap, buffer, plan.updates[j]);
          var i' :| 0 <= i' < |buffer| && buffer[i'] == plan.updates[j];
        }
      }
      ApplyUpdatesAt(staged, plan.updates, m, k, e);
      if !Targets(plan.updates, k) {
        UpdatesMember(snap, buffer, e);
        assert !HasChanged(snap[k], e);
      }
      forall i2 | 0 <= i2 < |buffer| && buffer[i2].id == Some(k)
        ensures buffer[i2] == e
      {
      }
    }
  }

  /**
   * The rows a successful run inserts: one per new meaningful entry, in
   * buffer order, under the ids `nextId`, `nextId + 1`, ..., each carrying
   * the mapping id and the acting user's id; no other key appears.
   */
  lemma {:induction false} InsertedRowsAfterSuccess(w: World, m: int, buffer: seq<BufEntry<JsId>>, a: Actor,
                                                    variant: Variant, k: JsId)
    requires ValidWorld(w) && MayEdit(w, m, a)
    requires k !in w.details
    ensures var ins := MakePlan(Snapshot(w.details, m), buffer).inserts;
      var after := Reconcile(w, Some(m), buffer, Some(a), variant, NoFault).after.details;
      (k in after <==> k.Num? && w.nextId <= k.n < w.nextId + |ins|) &&
      (k in after ==> after[k] == StoredDetail(AsFields(ins[k.n - w.nextId]), m, a.id))
  {
    var snap := Snapshot(w.details, m);
    var plan := MakePlan(snap, buffer);
    StoreAfterSuccess(w, m, buffer, a, variant);
    UpdatesAreNotDeleted(snap, buffer);
    forall j | 0 <= j < |plan.updates|
      ensures plan.updates[j].id.Some? && plan.updates[j].id.value in w.details
    {
      assert plan.updates[j] in plan.updates;
    }
    NewRowsAt(w, plan, m, a.id, k);
  }

  /** The rows under fresh ids after the update calls, when every update names a row stored before the run. */
  lemma NewRowsAt(w: World, plan: Plan<JsId>, m: int, user: UserId, k: JsId)
    requires ValidWorld(w) && k !in w.details
    requires forall j :: 0 <= j < |plan.updates| ==> plan.updates[j].id.Some? && plan.updates[j].id.value in w.details
    ensures var after := ApplyUpdates(Staged(w, plan, m, user), plan.updates, m);
      (k in after <==> k.Num? && w.nextId <= k.n < w.nextId + |plan.inserts|) &&
      (k in after ==> after[k] == StoredDetail(AsFields(plan.inserts[k.n - w.nextId]), m, user))
  {
    var staged := Staged(w, plan, m, user);
    InsertAllAt(w.details - plan.deletes, NewRows(plan.inserts, m, user), w.nextId, k);
    ApplyUpdatesKeepsRows(staged, plan.updates, m);
    if k in staged {
      ApplyUpdatesElsewhere(staged, plan.updates, m, k);
    }
  }

  /** Rows of other mappings are untouched by a successful run. */
  lemma {:induction false} OtherMappingsUntouched(w: World, m: int, buffer: seq<BufEntry<JsId>>, a: Actor,
                                                  variant: Variant, k: JsId)
    requires ValidWorld(w) && MayEdit(w, m, a)
    requires k in w.details && w.details[k].mappingId != m
    ensures var after := Reconcile(w, Some(m), buffer, Some(a), variant, NoFault).after.details;
      k in after && after[k] == w.details[k]
  {
    var snap := Snapshot(w.details, m);
    var plan := MakePlan(snap, buffer);
    var staged := Staged(w, plan, m, a.id);
    StoreAfterSuccess(w, m, buffer, a, variant);
    InsertAllAt(w.details - plan.deletes, NewRows(plan.inserts, m, a.id), w.nextId, k);
    ApplyUpdatesAt(staged, plan.updates, m, k, NoEntry);
  }

  /** Dropping ids no row carries keeps the mirror as it is. */
  lemma {:induction false} DropIdsNone(mirror: seq<MirrorRow>, ids: set<JsId>)
    requires forall i :: 0 <= i < |mirror| ==> mirror[i].id !in ids
    ensures DropIds(mirror, ids) == mirror
    decreases |mirror|
  {
    if mirror != [] {
      DropIdsNone(mirror[1..], ids);
    }
  }

  /** Dropping ids distributes over concatenation, so it keeps the order of the rows. */
  lemma {:induction false} DropIdsConcat(a: seq<MirrorRow>, b: seq<MirrorRow>, ids: set<JsId>)
    ensures DropIds(a + b, ids) == DropIds(a, ids) + DropIds(b, ids)
    decreases |a|
  {
    if a == [] {
      assert a + b == b;
    } else {
      assert (a + b)[1..] == a[1..] + b;
      DropIdsConcat(a[1..], b, ids);
    }
  }

  /** With distinct buffer ids, the only update entry that can carry an entry's id is that entry. */
  lemma OnlyOneUpdateFor(snap: map<JsId, DetailFields>, buffer: seq<BufEntry<JsId>>, i: int)
    requires DistinctIds(buffer) && 0 <= i < |buffer| && buffer[i].id.Some?
    ensures OnlyEntryFor(Updates(snap, buffer), buffer[i].id.value, buffer[i])
  {
    var ups := Updates(snap, buffer);
    forall j | 0 <= j < |ups| && ups[j].id == buffer[i].id
      ensures ups[j] == buffer[i]
    {
      assert ups[j] in ups;
      UpdatesMember(snap, buffer, ups[j]);
      var i' :| 0 <= i' < |buffer| && buffer[i'] == ups[j];
    }
  }

  /** An id that occurs in `a` is first found in `a`, whatever follows. */
  lemma {:induction false} FirstIndexPrefix(a: seq<MirrorRow>, b: seq<MirrorRow>, id: JsId)
    requires FirstIndex(a, id) >= 0
    ensures FirstIndex(a + b, id) == FirstIndex(a, id)
    decreases |a|
  {
    if a[0].id != id {
      assert (a + b)[1..] == a[1..] + b;
      FirstIndexPrefix(a[1..], b, id);
    }
  }

  /** No two update entries carry the same id unless they are the same entry. */
  predicate SingleEntryPerId(ups: seq<BufEntry<JsId>>) {
    forall j, j' :: 0 <= j < |ups| && 0 <= j' < |ups| && ups[j].id.Some? && ups[j].id == ups[j'].id ==>
      ups[j] == ups[j']
  }

  /**
   * Patching `kept + appended`, where no update targets an appended row:
   * the appended rows stay as they are; the kept rows keep their ids and
   * parents; only the first row with a targeted id changes, taking the
   * fields of the entry that targets it.
   */
  lemma PatchKeptAndAppended(kept: seq<MirrorRow>, appended: seq<MirrorRow>, ups: seq<BufEntry<JsId>>, m: int,
                             variant: Variant)
    requires forall j :: 0 <= j < |appended| ==> !Targets(ups, appended[j].id)
    requires SingleEntryPerId(ups)
    ensures var after := PatchAll(kept + appended, ups, m, variant);
      |after| == |kept| + |appended| &&
      (forall j :: 0 <= j < |appended| ==> after[|kept| + j] == appended[j]) &&
      (forall i :: 0 <= i < |kept| ==> after[i].id == kept[i].id && after[i].parent == kept[i].parent) &&
      (forall i :: 0 <= i < |kept| && !Targets(ups, kept[i].id) ==> after[i] == kept[i]) &&
      (forall i :: 0 <= i < |kept| && i != FirstIndex(kept, kept[i].id) ==> after[i] == kept[i]) &&
      (forall i, j ::
        (0 <= i < |kept| && 0 <= j < |ups| && ups[j].id == Some(kept[i].id) &&
         i == FirstIndex(kept, kept[i].id)) ==> after[i].fields == AsFields(ups[j]))
  {
    var staged := kept + appended;
    var after := PatchAll(staged, ups, m, variant);
    PatchAllShape(staged, ups, m, variant);
    forall j | 0 <= j < |appended|
      ensures after[|kept| + j] == appended[j]
    {
      assert staged[|kept| + j] == appended[j];
      PatchAllAt(staged, ups, m, variant, |kept| + j, NoEntry);
    }
    forall i | 0 <= i < |kept|
      ensures after[i].id == kept[i].id && after[i].parent == kept[i].parent
      ensures !Targets(ups, kept[i].id) ==> after[i] == kept[i]
      ensures i != FirstIndex(kept, kept[i].id) ==> after[i] == kept[i]
    {
      assert staged[i] == kept[i];
      FirstIndexPrefix(kept, appended, kept[i].id);
      PatchAllAt(staged, ups, m, variant, i, NoEntry);
    }
    forall i, j | 0 <= i < |kept| && 0 <= j < |ups| && ups[j].id == Some(kept[i].id) &&
                  i == FirstIndex(kept, kept[i].id)
      ensures after[i].fields == AsFields(ups[j])
    {
      assert staged[i] == kept[i];
      FirstIndexPrefix(kept, appended, kept[i].id);
      PatchAllAt(staged, ups, m, variant, i, ups[j]);
    }
  }

  /** The rows a successful run appends to the mirror: one per insert, under the fresh ids, with no parent. */
  lemma AppendedRows(w: World, plan: Plan<JsId>, m: int, user: UserId)
    ensures var appended := Unlinked(CreatedRecords(NewRows(plan.inserts, m, user), w.nextId));
      |appended| == |plan.inserts| &&
      forall j :: 0 <= j < |plan.inserts| ==>
        appended[j] == MirrorRow(Num(w.nextId + j), AsFields(plan.inserts[j]), m, None)
  {
  }

  /** In a successful run, no update targets a freshly inserted row, and no two updates share an id. */
  lemma UpdatesMissAppendedRows(w: World, m: int, buffer: seq<BufEntry<JsId>>, user: UserId)
    requires ValidWorld(w) && DistinctIds(buffer)
    ensures var plan := MakePlan(Snapshot(w.details, m), buffer);
      var appended := Unlinked(CreatedRecords(NewRows(plan.inserts, m, user), w.nextId));
      SingleEntryPerId(plan.updates) &&
      (forall j :: 0 <= j < |appended| ==> appended[j].id !in plan.deletes && !Targets(plan.updates, appended[j].id))
  {
    var snap := Snapshot(w.details, m);
    var plan := MakePlan(snap, buffer);
    var appended := Unlinked(CreatedRecords(NewRows(plan.inserts, m, user), w.nextId));
    UpdatesAreNotDeleted(snap, buffer);
    forall j | 0 <= j < |appended|
      ensures appended[j].id !in plan.deletes && !Targets(plan.updates, appended[j].id)
    {
      assert appended[j].id == Num(w.nextId + j);
      assert Num(w.nextId + j) !in w.details;
      forall u | 0 <= u < |plan.updates|
        ensures plan.updates[u].id != Some(appended[j].id)
      {
        assert plan.updates[u] in plan.updates;
      }
    }
    forall j, j' | 0 <= j < |plan.updates| && 0 <= j' < |plan.updates| && plan.updates[j].id.Some? &&
                   plan.updates[j].id == plan.updates[j'].id
      ensures plan.updates[j] == plan.updates[j']
    {
      assert plan.updates[j] in plan.updates;
      UpdatesMember(snap, buffer, plan.updates[j]);
      var b :| 0 <= b < |buffer| && buffer[b] == plan.updates[j];
      OnlyOneUpdateFor(snap, buffer, b);
    }
  }

  /**
   * The mirror after a successful run: the rows left after dropping the
   * deleted ids keep their order, ids and parents, followed by one row per
   * insert with no parent; no deleted id remains; the first row with an
   * updated id takes that entry's fields; every other row is unchanged.
   */
  lemma MirrorRowsAfterSuccess(w: World, m: int, buffer: seq<BufEntry<JsId>>, a: Actor, variant: Variant)
    requires ValidWorld(w) && MayEdit(w, m, a) && DistinctIds(buffer)
    ensures var plan := MakePlan(Snapshot(w.details, m), buffer);
      var kept := DropIds(w.mirror, plan.deletes);
      var after := Reconcile(w, Some(m), buffer, Some(a), variant, NoFault).after.mirror;
      MirrorRowsOf(after, kept, plan, m, w.nextId)
  {
    var plan := MakePlan(Snapshot(w.details, m), buffer);
    var kept := DropIds(w.mirror, plan.deletes);
    var appended := Unlinked(CreatedRecords(NewRows(plan.inserts, m, a.id), w.nextId));
    MirrorAfterSuccess(w, m, buffer, a, variant);
    assert StagedMirror(w, plan, m, a.id) == kept + appended;
    AppendedRows(w, plan, m, a.id);
    UpdatesMissAppendedRows(w, m, buffer, a.id);
    PatchedRows(kept, appended, plan, m, variant, w.nextId);
  }

  /**
   * What the mirror `after` holds after a successful run of `plan`, where
   * `kept` is the mirror with the deleted ids dropped and `first` the first
   * fresh id.
   */
  ghost predicate MirrorRowsOf(after: seq<MirrorRow>, kept: seq<MirrorRow>, plan: Plan<JsId>, m: int, first: int) {
    |after| == |kept| + |plan.inserts| &&
    (forall i :: 0 <= i < |after| ==> after[i].id !in plan.deletes) &&
    (forall j :: 0 <= j < |plan.inserts| ==>
      after[|kept| + j] == MirrorRow(Num(first + j), AsFields(plan.inserts[j]), m, None)) &&
    (forall i :: 0 <= i < |kept| ==> after[i].id == kept[i].id && after[i].parent == kept[i].parent) &&
    (forall i :: 0 <= i < |kept| && !Targets(plan.updates, kept[i].id) ==> after[i] == kept[i]) &&
    (forall i :: 0 <= i < |kept| && i != FirstIndex(kept, kept[i].id) ==> after[i] == kept[i]) &&
    (forall i, j ::
      (0 <= i < |kept| && 0 <= j < |plan.updates| && plan.updates[j].id == Some(kept[i].id) &&
       i == FirstIndex(kept, kept[i].id)) ==> after[i].fields == AsFields(plan.updates[j]))
  }

  /** The patches of `plan.updates` applied to `kept` followed by the freshly inserted rows. */
  lemma PatchedRows(kept: seq<MirrorRow>, appended: seq<MirrorRow>, plan: Plan<JsId>, m: int, variant: Variant,
                    first: int)
    requires forall i :: 0 <= i < |kept| ==> kept[i].id !in plan.deletes
    requires |appended| == |plan.inserts|
    requires forall j :: 0 <= j < |plan.inserts| ==>
      appended[j] == MirrorRow(Num(first + j), AsFields(plan.inserts[j]), m, None)
    requires SingleEntryPerId(plan.updates)
    requires forall j :: 0 <= j < |appended| ==> appended[j].id !in plan.deletes && !Targets(plan.updates, appended[j].id)
    ensures MirrorRowsOf(PatchAll(kept + appended, plan.updates, m, variant), kept, plan, m, first)
  {
    var after := PatchAll(kept + appended, plan.updates, m, variant);
    PatchKeptAndAppended(kept, appended, plan.updates, m, variant);
    forall i | 0 <= i < |after|
      ensures after[i].id !in plan.deletes
    {
      if i >= |kept| {
        assert after[i] == appended[i - |kept|];
      }
    }
  }

  // ---------------------------------------------------------------------
  // Deleting one detail

  /** A non-admin may not delete a detail of someone else's mapping, nor one that does not exist. */
  lemma NonOwnerCannotDeleteDetail(w: World, detailId: JsId, a: Actor, variant: Variant, fault: Fault)
    requires !IsAdmin(a)
    requires detailId !in w.details || w.details[detailId].mappingId !in w.owners ||
             w.owners[w.details[detailId].mappingId] != a.id
    ensures DeleteSingle(w, detailId, Some(a), variant, fault).result.Fail?
    ensures DeleteSingle(w, detailId, Some(a), variant, fault).after == w
  {
  }

  /** A failed delete changes nothing; a successful one removes exactly that stored row. */
  lemma DeleteSingleStore(w: World, detailId: JsId, actor: Option<Actor>, variant: Variant, fault: Fault)
    ensures var run := DeleteSingle(w, detailId, actor, variant, fault);
      (run.result.Fail? ==> run.after == w) &&
      (run.result == Pass ==> run.after.details == w.details - {detailId} && run.after.owners == w.owners)
  {
  }

  /**
   * pinelabs.js removes one mirror row: when the id occurs, the mirror is one
   * row shorter, and the rows with other ids are still there in their order.
   */
  lemma RemoveFirstDropsOne(mirror: seq<MirrorRow>, id: JsId)
    ensures FirstIndex(mirror, id) >= 0 ==> |RemoveFirst(mirror, id)| == |mirror| - 1
    ensures FirstIndex(mirror, id) < 0 ==> RemoveFirst(mirror, id) == mirror
    ensures DropIds(RemoveFirst(mirror, id), {id}) == DropIds(mirror, {id})
  {
    var i := FirstIndex(mirror, id);
    if i >= 0 {
      var before, row, after := mirror[..i], mirror[i], mirror[i + 1..];
      assert mirror == before + ([row] + after);
      assert RemoveFirst(mirror, id) == before + after;
      DropIdsConcat(before, [row] + after, {id});
      DropIdsConcat([row], after, {id});
      DropIdsConcat(before, after, {id});
      assert DropIds([row], {id}) == [] by {
        assert [row][1..] == [];
      }
    }
  }

  /**
   * After a successful single delete the rows with other ids are kept in
   * their order; index.js leaves no row with the id, pinelabs.js one row fewer.
   */
  lemma DeleteSingleMirror(w: World, detailId: JsId, actor: Option<Actor>, variant: Variant, fault: Fault)
    requires DeleteSingle(w, detailId, actor, variant, fault).result == Pass
    ensures var after := DeleteSingle(w, detailId, actor, variant, fault).after.mirror;
      DropIds(after, {detailId}) == DropIds(w.mirror, {detailId}) &&
      (variant == IndexScript ==> forall i :: 0 <= i < |after| ==> after[i].id != detailId) &&
      (variant == PineLabsScript && FirstIndex(w.mirror, detailId) >= 0 ==> |after| == |w.mirror| - 1)
  {
    RemoveFirstDropsOne(w.mirror, detailId);
    DropIdsNone(DropIds(w.mirror, {detailId}), {detailId});
  }

  // ---------------------------------------------------------------------
  // Deleting a mapping

  /**
   * A successful `deleteMapping` leaves no detail row and no mirror row of
   * the mapping, removes the mapping, keeps every other detail row, and
   * keeps the store invariant.
   */
  lemma DeleteMappingRemovesAll(w: World, id: int, fault: Fault)
    requires ValidWorld(w)
    ensures var run := DeleteMappingEffect(w, id, fault);
      ValidWorld(run.after) &&
      (forall k :: k in w.details && w.details[k].mappingId != id ==>
        k in run.after.details && run.after.details[k] == w.details[k]) &&
      (run.result == Pass ==>
        id !in run.after.owners &&
        (forall k :: k in run.after.details ==> run.after.details[k].mappingId != id) &&
        (forall i :: 0 <= i < |run.after.mirror| ==> run.after.mirror[i].mappingId != id))
  {
  }

  /**
   * The two deletes are not one transaction: when the mapping delete fails
   * its details are already gone, while the mapping and the mirror stay.
   */
  lemma MappingDeleteFailureKeepsMirror(w: World, id: int)
    ensures var run := DeleteMappingEffect(w, id, MappingDeleteFails);
      run.result == Fail(MappingDeleteFailed) && run.after.mirror == w.mirror &&
      run.after.owners == w.owners &&
      forall k :: k in run.after.details ==> run.after.details[k].mappingId != id
  {
  }
}
